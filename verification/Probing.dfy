/** What testing a provider for a task can change: nothing but bookkeeping that was due anyway. */
module Probing {
  import opened Common
  import opened Arithmetic
  import opened Scheduling
  import opened AllocLists
  import opened WorkAccounting

  /** b is allocation a, at most with its work accounting brought up to now. */
  predicate Same(a: Alloc, b: Alloc, now: real) {
    b == a || b == Updated(a, now)
  }

  predicate Kept(a: Alloc, s: seq<Alloc>, now: real) {
    exists b :: b in s && Same(a, b, now)
  }

  /** Core d is core c later: nothing new, and only completed or expired work is gone. */
  predicate CoreLater(c: Core, d: Core, now: real) {
    && d.available == c.available && d.current == c.current
    && (forall b :: b in d.active ==> exists a :: a in c.active && Same(a, b, now))
    && (forall a :: a in c.active ==> Kept(a, d.active, now) || Updated(a, now).mips <= 1.0 || a.deadline <= now)
    && (forall b :: b in d.inFly ==> b in c.inFly)
    && (forall a :: a in c.inFly ==> a in d.inFly || a.deadline <= now)
  }

  predicate Later(n: Node, m: Node, now: real) {
    && |m.cores| == |n.cores| && m.dvfs == n.dvfs
    && forall k | 0 <= k < |n.cores| :: CoreLater(n.cores[k], m.cores[k], now)
  }

  lemma SameTrans(a: Alloc, b: Alloc, c: Alloc, now: real)
    requires Same(a, b, now) && Same(b, c, now)
    ensures Same(a, c, now) && Updated(b, now) == Updated(a, now)
    ensures b.task == a.task && b.deadline == a.deadline
  {
    UpdatedTwice(a, now);
  }

  lemma CoreLaterTrans(c: Core, d: Core, e: Core, now: real)
    requires CoreLater(c, d, now) && CoreLater(d, e, now)
    ensures CoreLater(c, e, now)
  {
    hide Updated;
    forall x | x in e.active
      ensures exists a :: a in c.active && Same(a, x, now)
    {
      var b :| b in d.active && Same(b, x, now);
      var a :| a in c.active && Same(a, b, now);
      SameTrans(a, b, x, now);
    }
    forall a | a in c.active && Updated(a, now).mips > 1.0 && a.deadline > now
      ensures Kept(a, e.active, now)
    {
      var b :| b in d.active && Same(a, b, now);
      SameTrans(a, b, b, now);
      var x :| x in e.active && Same(b, x, now);
      SameTrans(a, b, x, now);
    }
  }

  lemma LaterTrans(n: Node, m: Node, p: Node, now: real)
    requires Later(n, m, now) && Later(m, p, now)
    ensures Later(n, p, now)
  {
    hide CoreLater;
    forall k | 0 <= k < |n.cores|
      ensures CoreLater(n.cores[k], p.cores[k], now)
    {
      CoreLaterTrans(n.cores[k], m.cores[k], p.cores[k], now);
    }
  }

  lemma LaterRefl(n: Node, now: real)
    ensures Later(n, n, now)
  {
    hide Updated;
  }

  /** Every allocation carries the deadline of its task. */
  predicate Dated(n: Node, book: map<nat, real>) {
    forall c :: c in n.cores ==>
      && (forall a :: a in c.active ==> a.task in book && a.deadline == book[a.task])
      && (forall a :: a in c.inFly ==> a.task in book && a.deadline == book[a.task])
  }

  lemma LaterDated(n: Node, m: Node, now: real, book: map<nat, real>)
    requires Later(n, m, now) && Dated(n, book)
    ensures Dated(m, book)
  {
    hide Updated, Kept;
    forall d | d in m.cores
      ensures forall b :: b in d.active ==> b.task in book && b.deadline == book[b.task]
      ensures forall b :: b in d.inFly ==> b.task in book && b.deadline == book[b.task]
    {
      var k :| 0 <= k < |m.cores| && m.cores[k] == d;
      var c := n.cores[k];
      assert c in n.cores && CoreLater(c, d, now);
      forall b | b in d.active
        ensures b.task in book && b.deadline == book[b.task]
      {
        var a :| a in c.active && Same(a, b, now);
        SameTrans(a, b, b, now);
      }
    }
  }

  lemma FailLater(n: Node, out: set<nat>, now: real, book: map<nat, real>)
    requires Dated(n, book) && forall t :: t in out && t in book ==> book[t] <= now
    ensures Later(n, FailAll(n, out), now)
  {
    hide Updated;
    forall k | 0 <= k < |n.cores|
      ensures CoreLater(n.cores[k], FailAll(n, out).cores[k], now)
    {
      assert n.cores[k] in n.cores;
    }
  }

  lemma RetireLater(n: Node, k: nat, now: real)
    requires k < |n.cores| && forall a :: a in n.cores[k].active ==> Updated(a, now) == a
    ensures Later(n, WithActive(n, k, Unfinished(n.cores[k].active)), now)
  {
    hide Updated;
  }

  lemma ExpiredDue(n: Node, k: nat, now: real, book: map<nat, real>)
    requires k < |n.cores| && Dated(n, book)
    ensures forall t :: t in Expired(n.cores[k].active, now) ==> t in book && book[t] <= now
    ensures forall t :: t in Overdue(n.cores[k].inFly, now) ==> t in book && book[t] <= now
  {
    assert n.cores[k] in n.cores;
  }

  /** removeCompleted takes away only completed work and tasks past their deadline. */
  lemma PurgeLater(n: Node, k: nat, now: real, book: map<nat, real>)
    requires k < |n.cores| && Dated(n, book)
    requires forall a :: a in n.cores[k].active ==> Updated(a, now) == a
    ensures Later(n, Purge(n, k, now), now)
  {
    hide Updated, CoreLater;
    var out := Expired(n.cores[k].active, now);
    ExpiredDue(n, k, now, book);
    FailLater(n, out, now, book);
    var n1 := FailAll(n, out);
    RetireLater(n1, k, now);
    var n2 := WithActive(n1, k, Unfinished(n1.cores[k].active));
    LaterTrans(n, n1, n2, now);
  }

  lemma UpdateLater(n: Node, k: nat, now: real)
    requires k < |n.cores|
    ensures var m := WithActive(n, k, UpdateAll(n.cores[k].active, now));
      Later(n, m, now) && forall a :: a in m.cores[k].active ==> Updated(a, now) == a
  {
    hide Updated;
    var s := n.cores[k].active;
    var u := UpdateAll(s, now);
    forall b | b in u
      ensures Updated(b, now) == b && exists a :: a in s && Same(a, b, now)
    {
      var i :| 0 <= i < |u| && u[i] == b;
      UpdatedTwice(s[i], now);
      assert s[i] in s;
    }
    forall a | a in s
      ensures Kept(a, u, now)
    {
      var i :| 0 <= i < |s| && s[i] == a;
      assert u[i] in u;
    }
  }

  /** getMostUrgentTaskRate, on any state. */
  lemma SweptLater(n: Node, k: nat, now: real, book: map<nat, real>)
    requires k < |n.cores| && Dated(n, book)
    ensures Later(n, Swept(n, k, now), now) && Dated(Swept(n, k, now), book)
  {
    hide Updated, CoreLater, Purge;
    var n1 := WithActive(n, k, UpdateAll(n.cores[k].active, now));
    UpdateLater(n, k, now);
    LaterDated(n, n1, now, book);
    PurgeLater(n1, k, now, book);
    var n2 := Purge(n1, k, now);
    LaterTrans(n, n1, n2, now);
    LaterDated(n, n2, now, book);
    ExpiredDue(n2, k, now, book);
    FailLater(n2, Overdue(n2.cores[k].inFly, now), now, book);
    SweptIs(n, k, now);
    LaterTrans(n, n2, Swept(n, k, now), now);
    LaterDated(n, Swept(n, k, now), now, book);
  }

  // ---------- testing a provider ----------

  lemma CoreLaterWithout(c: Core, d: Core, now: real, out: set<nat>)
    requires CoreLater(c, d, now)
    ensures CoreLater(Without(c, out), Without(d, out), now)
  {
    hide Updated;
    var c1, d1 := Without(c, out), Without(d, out);
    forall b | b in d1.active
      ensures exists a :: a in c1.active && Same(a, b, now)
    {
      var a :| a in c.active && Same(a, b, now);
      SameTrans(a, b, b, now);
    }
    forall a | a in c1.active && Updated(a, now).mips > 1.0 && a.deadline > now
      ensures Kept(a, d1.active, now)
    {
      var b :| b in d.active && Same(a, b, now);
      SameTrans(a, b, b, now);
      assert b in d1.active;
    }
  }

  lemma LaterWithdraw(n: Node, m: Node, now: real, t: nat)
    requires Later(n, m, now)
    ensures Later(Withdraw(n, t), Withdraw(m, t), now)
  {
    hide CoreLater;
    forall k | 0 <= k < |n.cores|
      ensures CoreLater(Withdraw(n, t).cores[k], Withdraw(m, t).cores[k], now)
    {
      CoreLaterWithout(n.cores[k], m.cores[k], now, {t});
    }
  }

  lemma {:induction false} DropAppend(s: seq<Alloc>, a: Alloc, out: set<nat>)
    requires a.task in out
    ensures Drop(s + [a], out) == Drop(s, out)
  {
    if s == [] {
      assert s + [a] == [a];
    } else {
      assert (s + [a])[1..] == s[1..] + [a];
      DropAppend(s[1..], a, out);
    }
  }

  lemma AssignWithdraw(n: Node, k: nat, a: Alloc)
    requires k < |n.cores|
    ensures Withdraw(Assign(n, k, a), a.task) == Withdraw(n, a.task)
  {
    var m := Assign(n, k, a);
    DropAppend(n.cores[k].inFly, a, {a.task});
    forall j | 0 <= j < |n.cores|
      ensures Withdraw(m, a.task).cores[j] == Withdraw(n, a.task).cores[j]
    {}
    assert Withdraw(m, a.task).cores == Withdraw(n, a.task).cores;
  }

  lemma AssignDated(n: Node, k: nat, a: Alloc, book: map<nat, real>)
    requires k < |n.cores| && Dated(n, book) && a.task in book && a.deadline == book[a.task]
    ensures Dated(Assign(n, k, a), book)
  {
    assert n.cores[k] in n.cores;
  }

  lemma {:induction false} PlaceFromLater(n: Node, a: Alloc, now: real, k: nat, book: map<nat, real>)
    requires k <= |n.cores| && now < a.deadline && Dated(n, book)
    requires a.task in book && a.deadline == book[a.task]
    ensures var r := PlaceFrom(n, a, now, k).0;
      Later(Withdraw(n, a.task), Withdraw(r, a.task), now) && Dated(r, book)
    decreases |n.cores| - k
  {
    hide Later, Dated, Withdraw, Assign, Admits, PlaceFrom, Swept;
    PlaceFromIs(n, a, now, k);
    if k == |n.cores| {
      LaterRefl(Withdraw(n, a.task), now);
    } else {
      var n1 := Swept(n, k, now);
      SweptLater(n, k, now, book);
      LaterWithdraw(n, n1, now, a.task);
      if Admits(n1.cores[k], a, now) {
        AssignWithdraw(n1, k, a);
        AssignDated(n1, k, a, book);
      } else {
        PlaceFromLater(n1, a, now, k + 1, book);
        LaterTrans(Withdraw(n, a.task), Withdraw(n1, a.task), Withdraw(PlaceFrom(n1, a, now, k + 1).0, a.task), now);
      }
    }
  }

  lemma WithdrawTwice(n: Node, t: nat)
    ensures Withdraw(Withdraw(n, t), t) == Withdraw(n, t)
    ensures Absent(Withdraw(n, t).cores, t)
  {
    var r := Withdraw(n, t);
    forall k | 0 <= k < |n.cores|
      ensures Withdraw(r, t).cores[k] == r.cores[k]
    {
      DropNone(r.cores[k].active, {t});
      DropNone(r.cores[k].inFly, {t});
    }
    assert Withdraw(r, t).cores == r.cores;
  }

  lemma WithdrawAbsent(n: Node, t: nat)
    requires Absent(n.cores, t)
    ensures Withdraw(n, t) == n
  {
    forall k | 0 <= k < |n.cores|
      ensures Withdraw(n, t).cores[k] == n.cores[k]
    {
      assert n.cores[k] in n.cores;
      DropNone(n.cores[k].active, {t});
      DropNone(n.cores[k].inFly, {t});
    }
    assert Withdraw(n, t).cores == n.cores;
  }

  lemma {:induction false} PlaceAllocsLater(n: Node, t: Task, now: real, i: nat, book: map<nat, real>)
    requires i <= |t.loads| && now < t.deadline && Dated(n, book)
    requires t.id in book && t.deadline == book[t.id]
    ensures var (r, ok) := PlaceAllocs(n, t, now, i);
      && Later(Withdraw(n, t.id), Withdraw(r, t.id), now)
      && (!ok ==> Withdraw(r, t.id) == r)
    decreases |t.loads| - i
  {
    hide Later, Dated, Withdraw, PlaceFrom, PlaceAllocs;
    if i == |t.loads| {
      PlaceAllocsEnd(n, t, now);
      LaterRefl(Withdraw(n, t.id), now);
    } else {
      PlaceAllocsNext(n, t, now, i);
      PlaceFromLater(n, Fresh(t, i), now, 0, book);
      var (n1, ok) := PlaceFrom(n, Fresh(t, i), now, 0);
      if ok {
        PlaceAllocsLater(n1, t, now, i + 1, book);
        LaterTrans(Withdraw(n, t.id), Withdraw(n1, t.id), Withdraw(PlaceAllocs(n1, t, now, i + 1).0, t.id), now);
      } else {
        WithdrawTwice(n1, t.id);
      }
    }
  }

  // ---------- which tasks end ----------

  /** Some allocation of task t is past its deadline. */
  ghost predicate Lapsed(n: Node, t: nat, now: real) {
    exists k, a :: 0 <= k < |n.cores| && (a in n.cores[k].active || a in n.cores[k].inFly) && a.task == t
      && a.deadline <= now
  }

  /** Some allocation of task t has done its work. */
  ghost predicate Worked(n: Node, t: nat, now: real) {
    exists k, a :: 0 <= k < |n.cores| && a in n.cores[k].active && a.task == t && Updated(a, now).mips <= 1.0
  }

  /**
   From n to m only tasks fail that were past their deadline, and only tasks finish, now, that had done
   their work; and a reservation is returned for these and for no others.
   */
  ghost predicate Ended(n: Node, m: Node, now: real) {
    && n.failed <= m.failed && m.holding <= n.holding
    && (forall t :: t in m.failed && t !in n.failed ==> Lapsed(n, t, now) && t !in m.holding)
    && (forall t :: t in n.finished ==> t in m.finished)
    && (forall t :: t in m.finished && t !in n.finished ==> t !in m.holding)
    && (forall t :: t in m.finished ==>
          (t in n.finished && m.finished[t] == n.finished[t]) || (m.finished[t] == now && Worked(n, t, now)))
    && (forall t :: t in n.holding && t !in m.holding ==> t in m.failed || (t in m.finished && m.finished[t] == now))
  }

  /** Work on m was on n, at most with its accounting brought up to date, or is task t's, not begun. */
  ghost predicate Traced(n: Node, m: Node, now: real, t: nat) {
    && |m.cores| == |n.cores|
    && (forall k, b :: 0 <= k < |m.cores| && b in m.cores[k].active ==>
          exists a :: a in n.cores[k].active && Same(a, b, now))
    && (forall k, b :: 0 <= k < |m.cores| && b in m.cores[k].inFly ==>
          b in n.cores[k].inFly || (b.task == t && now < b.deadline))
  }

  lemma LaterTraced(n: Node, m: Node, now: real, t: nat)
    requires Later(n, m, now)
    ensures Traced(n, m, now, t)
  {
    hide Updated, Kept;
    forall k, b | 0 <= k < |m.cores| && b in m.cores[k].active
      ensures exists a :: a in n.cores[k].active && Same(a, b, now)
    {
      assert CoreLater(n.cores[k], m.cores[k], now);
    }
    forall k, b | 0 <= k < |m.cores| && b in m.cores[k].inFly
      ensures b in n.cores[k].inFly
    {
      assert CoreLater(n.cores[k], m.cores[k], now);
    }
  }

  lemma TracedTrans(n: Node, m: Node, p: Node, now: real, t: nat)
    requires Traced(n, m, now, t) && Traced(m, p, now, t)
    ensures Traced(n, p, now, t)
  {
    hide Updated;
    forall k, b | 0 <= k < |p.cores| && b in p.cores[k].active
      ensures exists a :: a in n.cores[k].active && Same(a, b, now)
    {
      var x :| x in m.cores[k].active && Same(x, b, now);
      var a :| a in n.cores[k].active && Same(a, x, now);
      SameTrans(a, x, b, now);
    }
  }

  lemma TracedLapsed(n: Node, m: Node, now: real, t: nat, u: nat)
    requires Traced(n, m, now, t)
    ensures Lapsed(m, u, now) ==> Lapsed(n, u, now)
    ensures Worked(m, u, now) ==> Worked(n, u, now)
  {
    hide Updated;
    if Lapsed(m, u, now) {
      var k, b :| 0 <= k < |m.cores| && (b in m.cores[k].active || b in m.cores[k].inFly) && b.task == u
        && b.deadline <= now;
      if b in m.cores[k].active {
        var a :| a in n.cores[k].active && Same(a, b, now);
        SameTrans(a, b, b, now);
      }
    }
    if Worked(m, u, now) {
      var k, b :| 0 <= k < |m.cores| && b in m.cores[k].active && b.task == u && Updated(b, now).mips <= 1.0;
      var a :| a in n.cores[k].active && Same(a, b, now);
      SameTrans(a, b, b, now);
    }
  }

  lemma EndedTrans(n: Node, m: Node, p: Node, now: real, t: nat)
    requires Ended(n, m, now) && Ended(m, p, now) && Traced(n, m, now, t)
    ensures Ended(n, p, now)
  {
    forall u
      ensures Lapsed(m, u, now) ==> Lapsed(n, u, now)
      ensures Worked(m, u, now) ==> Worked(n, u, now)
    {
      TracedLapsed(n, m, now, t, u);
    }
    hide Lapsed, Worked, Traced;
  }

  lemma EndedSame(n: Node, m: Node, now: real)
    requires m.failed == n.failed && m.finished == n.finished && m.holding == n.holding
    ensures Ended(n, m, now)
  {
    hide Lapsed, Worked;
  }

  lemma FailEnds(n: Node, out: set<nat>, now: real)
    requires forall t :: t in out ==> Lapsed(n, t, now)
    ensures Ended(n, FailAll(n, out), now)
  {
    hide Lapsed, Worked;
  }

  lemma RetireEnds(n: Node, k: nat, now: real)
    requires k < |n.cores| && forall a :: a in n.cores[k].active ==> Updated(a, now) == a
    ensures Ended(n, Retire(n, k, now), now)
  {
    var s := n.cores[k].active;
    var done := Completed(s, WithActive(n, k, Unfinished(s)).cores);
    forall t | t in done
      ensures Worked(n, t, now)
    {
      var a :| a in s && a.mips <= 1.0 && a.task == t;
      assert a in n.cores[k].active && Updated(a, now).mips <= 1.0;
    }
    hide Lapsed, Worked, Completed;
  }

  lemma ExpiredLapsed(n: Node, k: nat, now: real)
    requires k < |n.cores|
    ensures forall t :: t in Expired(n.cores[k].active, now) ==> Lapsed(n, t, now)
    ensures forall t :: t in Overdue(n.cores[k].inFly, now) ==> Lapsed(n, t, now)
  {}

  lemma PurgeEnds(n: Node, k: nat, now: real, book: map<nat, real>)
    requires k < |n.cores| && Dated(n, book)
    requires forall a :: a in n.cores[k].active ==> Updated(a, now) == a
    ensures Ended(n, Purge(n, k, now), now)
  {
    var out := Expired(n.cores[k].active, now);
    var n1 := FailAll(n, out);
    ExpiredDue(n, k, now, book);
    FailLater(n, out, now, book);
    LaterTraced(n, n1, now, 0);
    ExpiredLapsed(n, k, now);
    FailEnds(n, out, now);
    forall a | a in n1.cores[k].active
      ensures Updated(a, now) == a
    {}
    hide Updated, Traced, Ended, Later, Dated;
    RetireEnds(n1, k, now);
    PurgeIs(n, k, now);
    hide FailAll, Retire, Purge;
    EndedTrans(n, n1, Purge(n, k, now), now, 0);
  }

  /** Which tasks getMostUrgentTaskRate ends. */
  lemma SweptEnds(n: Node, k: nat, now: real, book: map<nat, real>)
    requires k < |n.cores| && Dated(n, book)
    ensures Ended(n, Swept(n, k, now), now)
  {
    var n1 := WithActive(n, k, UpdateAll(n.cores[k].active, now));
    UpdateLater(n, k, now);
    LaterDated(n, n1, now, book);
    EndedSame(n, n1, now);
    hide Updated, Traced, Ended, Later, Dated, Purge, FailAll, UpdateAll, Lapsed;
    PurgeEnds(n1, k, now, book);
    PurgeLater(n1, k, now, book);
    var n2 := Purge(n1, k, now);
    LaterTraced(n, n1, now, 0);
    LaterTraced(n1, n2, now, 0);
    EndedTrans(n, n1, n2, now, 0);
    TracedTrans(n, n1, n2, now, 0);
    ExpiredLapsed(n2, k, now);
    FailEnds(n2, Overdue(n2.cores[k].inFly, now), now);
    SweptIs(n, k, now);
    EndedTrans(n, n2, Swept(n, k, now), now, 0);
  }

  lemma AssignTraced(n: Node, k: nat, a: Alloc, now: real)
    requires k < |n.cores| && now < a.deadline
    ensures Traced(n, Assign(n, k, a), now, a.task) && Ended(n, Assign(n, k, a), now)
  {
    EndedSame(n, Assign(n, k, a), now);
    hide Updated;
  }

  lemma {:induction false} PlaceFromEnds(n: Node, a: Alloc, now: real, k: nat, book: map<nat, real>)
    requires k <= |n.cores| && now < a.deadline && Dated(n, book)
    requires a.task in book && a.deadline == book[a.task]
    ensures var r := PlaceFrom(n, a, now, k).0;
      Traced(n, r, now, a.task) && Ended(n, r, now) && Dated(r, book)
    decreases |n.cores| - k
  {
    hide Later, Dated, Assign, Admits, PlaceFrom, Swept, Traced, Ended;
    PlaceFromIs(n, a, now, k);
    if k == |n.cores| {
      LaterRefl(n, now);
      LaterTraced(n, n, now, a.task);
      EndedSame(n, n, now);
    } else {
      var n1 := Swept(n, k, now);
      SweptLater(n, k, now, book);
      SweptEnds(n, k, now, book);
      LaterTraced(n, n1, now, a.task);
      var r := PlaceFrom(n, a, now, k).0;
      if Admits(n1.cores[k], a, now) {
        AssignTraced(n1, k, a, now);
        AssignDated(n1, k, a, book);
      } else {
        PlaceFromEnds(n1, a, now, k + 1, book);
      }
      TracedTrans(n, n1, r, now, a.task);
      EndedTrans(n, n1, r, now, a.task);
    }
  }

  lemma WithdrawTraced(n: Node, t: nat, now: real)
    ensures Traced(n, Withdraw(n, t), now, t) && Ended(n, Withdraw(n, t), now)
  {
    EndedSame(n, Withdraw(n, t), now);
    hide Updated;
  }

  lemma {:induction false} PlaceAllocsEnds(n: Node, t: Task, now: real, i: nat, book: map<nat, real>)
    requires i <= |t.loads| && now < t.deadline && Dated(n, book)
    requires t.id in book && t.deadline == book[t.id]
    ensures var r := PlaceAllocs(n, t, now, i).0; Traced(n, r, now, t.id) && Ended(n, r, now)
    decreases |t.loads| - i
  {
    hide Later, Dated, Withdraw, PlaceFrom, PlaceAllocs, Traced, Ended;
    if i == |t.loads| {
      PlaceAllocsEnd(n, t, now);
      LaterRefl(n, now);
      LaterTraced(n, n, now, t.id);
      EndedSame(n, n, now);
    } else {
      PlaceAllocsNext(n, t, now, i);
      PlaceFromEnds(n, Fresh(t, i), now, 0, book);
      var (n1, ok) := PlaceFrom(n, Fresh(t, i), now, 0);
      var r := PlaceAllocs(n, t, now, i).0;
      if ok {
        PlaceAllocsEnds(n1, t, now, i + 1, book);
      } else {
        WithdrawTraced(n1, t.id, now);
      }
      TracedTrans(n, n1, r, now, t.id);
      EndedTrans(n, n1, r, now, t.id);
    }
  }

  lemma ProbeEnds(n: Node, t: Task, now: real, fits: bool, book: map<nat, real>)
    requires now < t.deadline && Dated(n, book) && t.id in book && t.deadline == book[t.id]
    ensures Ended(n, Probe(n, t, now, fits).0, now)
  {
    ProbeIs(n, t, now, fits);
    hide PlaceAllocs, Traced, Ended, Withdraw, Dated;
    if fits {
      PlaceAllocsEnds(n, t, now, 0, book);
      var (m, ok) := PlaceAllocs(n, t, now, 0);
      if ok {
        WithdrawTraced(m, t.id, now);
        EndedTrans(n, m, Withdraw(m, t.id), now, t.id);
      }
    } else {
      EndedSame(n, n, now);
    }
  }

  /**
   Testing a provider leaves no trace: the task is on none of its cores afterwards, every other task
   is where it was unless its work was done or its deadline had come, and exactly such tasks have
   finished or failed and returned what they reserved.
   */
  lemma ProbeLeavesNoTrace(n: Node, t: Task, now: real, fits: bool, book: map<nat, real>)
    requires now < t.deadline && Dated(n, book) && Absent(n.cores, t.id)
    ensures var r := Probe(n, t, now, fits).0;
      Absent(r.cores, t.id) && Later(n, r, now) && Ended(n, r, now)
  {
    var book1 := book[t.id := t.deadline];
    DatedMore(n, book, t.id, t.deadline);
    ProbeEnds(n, t, now, fits, book1);
    WithdrawAbsent(n, t.id);
    ProbeIs(n, t, now, fits);
    hide Later, Withdraw, PlaceAllocs, Ended, Probe, Dated;
    if fits {
      PlaceAllocsLater(n, t, now, 0, book1);
      var (m, ok) := PlaceAllocs(n, t, now, 0);
      WithdrawTwice(m, t.id);
    } else {
      LaterRefl(n, now);
    }
  }

  lemma DatedMore(n: Node, book: map<nat, real>, t: nat, d: real)
    requires Dated(n, book) && Absent(n.cores, t)
    ensures Dated(n, book[t := d])
  {}
}
