/** Every task ends at most once and in one way, in every run. */
module Endings {
  import opened Common
  import opened Scheduling
  import opened AllocLists
  import opened Simulation

  predicate Has(s: seq<Alloc>, t: nat) {
    exists a :: a in s && a.task == t
  }

  predicate Active(n: Node, t: nat) {
    exists k :: 0 <= k < |n.cores| && Has(n.cores[k].active, t)
  }

  predicate Waits(n: Node, t: nat) {
    exists k :: 0 <= k < |n.cores| && Has(n.cores[k].inFly, t)
  }

  ghost predicate Present(n: Node, t: nat) {
    Active(n, t) || Waits(n, t)
  }

  lemma PresentIsNotAbsent(n: Node, t: nat)
    ensures Present(n, t) <==> !Absent(n.cores, t)
  {
    forall k | 0 <= k < |n.cores|
      ensures OnCore(n.cores[k], t) <==> Has(n.cores[k].active, t) || Has(n.cores[k].inFly, t)
    {}
    if Present(n, t) {
      var k :| 0 <= k < |n.cores| && (Has(n.cores[k].active, t) || Has(n.cores[k].inFly, t));
      assert n.cores[k] in n.cores;
    }
  }

  /**
   The ledger of a provider.  late: the tasks received and started after they had failed in
   flight; rejected: how often a task that had failed in flight was received and turned away.
   */
  ghost predicate Ledger(n: Node, late: set<nat>, rejected: nat) {
    && (forall t :: Present(n, t) ==> t !in n.finished && t !in n.failed)
    && n.finished.Keys !! n.failed
    && n.failures == |n.failed| + rejected && n.outputs == |n.finished|
    && late <= n.failed && late <= n.holding
    && (forall t :: t in n.holding ==> t in late || Present(n, t))
    && (forall t :: Active(n, t) ==> t in n.holding)
  }

  /** No task of known is lost: it has ended or is on some core. */
  ghost predicate Accounted(n: Node, known: set<nat>) {
    forall t :: t in known ==> t in n.finished || t in n.failed || Present(n, t)
  }

  /** Every task that is on a core or has ended is one of book. */
  ghost predicate Within(n: Node, book: set<nat>) {
    && (forall t :: Present(n, t) ==> t in book)
    && n.finished.Keys <= book && n.failed <= book
  }

  lemma DropHas(s: seq<Alloc>, out: set<nat>, t: nat)
    ensures Has(Drop(s, out), t) <==> Has(s, t) && t !in out
  {}

  lemma FailPresence(n: Node, out: set<nat>, t: nat)
    ensures Active(FailAll(n, out), t) <==> Active(n, t) && t !in out
    ensures Waits(FailAll(n, out), t) <==> Waits(n, t) && t !in out
  {
    var r := FailAll(n, out);
    forall k | 0 <= k < |n.cores|
      ensures Has(r.cores[k].active, t) <==> Has(n.cores[k].active, t) && t !in out
      ensures Has(r.cores[k].inFly, t) <==> Has(n.cores[k].inFly, t) && t !in out
    {
      DropHas(n.cores[k].active, out, t);
      DropHas(n.cores[k].inFly, out, t);
    }
    hide Has;
  }

  /** Tasks present fail: each is counted once. */
  lemma FailLedger(n: Node, out: set<nat>, late: set<nat>, rejected: nat, known: set<nat>, book: set<nat>)
    requires Ledger(n, late, rejected) && Accounted(n, known) && Within(n, book)
    requires forall t :: t in out ==> Present(n, t)
    ensures var r := FailAll(n, out); Ledger(r, late, rejected) && Accounted(r, known) && Within(r, book)
  {
    var r := FailAll(n, out);
    hide Active, Waits;
    forall t
      ensures Active(r, t) <==> Active(n, t) && t !in out
      ensures Waits(r, t) <==> Waits(n, t) && t !in out
    {
      FailPresence(n, out, t);
    }
    assert n.failed !! out;
    assert |n.failed + out| == |n.failed| + |out|;
  }

  lemma ActivePresence(n: Node, k: nat, s: seq<Alloc>, t: nat)
    requires k < |n.cores| && (Has(s, t) ==> Has(n.cores[k].active, t))
    ensures var r := WithActive(n, k, s);
      && (Active(r, t) ==> Active(n, t)) && (Waits(r, t) <==> Waits(n, t))
      && (Active(n, t) && !Active(r, t) ==> Has(n.cores[k].active, t) && !Has(s, t))
  {
    hide Has;
    var r := WithActive(n, k, s);
    forall j | 0 <= j < |n.cores|
      ensures r.cores[j].inFly == n.cores[j].inFly
      ensures j != k ==> r.cores[j].active == n.cores[j].active
    {}
  }

  /** Core k loses its completed work: the tasks of done are finished and on no core, the others where they were. */
  ghost predicate Retired(n: Node, r: Node, done: set<nat>, now: real) {
    && r.finished == n.finished + (map t | t in done :: now) && r.outputs == n.outputs + |done|
    && r.failed == n.failed && r.failures == n.failures && r.holding == n.holding - done
    && forall t ::
         && (Active(r, t) ==> Active(n, t)) && (Waits(r, t) <==> Waits(n, t))
         && (t in done ==> Active(n, t) && !Present(r, t))
         && (Present(n, t) && !Present(r, t) ==> t in done)
  }

  lemma RetireRetires(n: Node, k: nat, now: real) returns (done: set<nat>)
    requires k < |n.cores|
    ensures Retired(n, Retire(n, k, now), done, now)
    ensures forall t :: t in done ==> Has(n.cores[k].active, t)
  {
    var s := n.cores[k].active;
    done := Completed(s, WithActive(n, k, Unfinished(s)).cores);
    forall t | t in done
      ensures Has(s, t)
    {}
    hide Active, Waits, Has, Completed;
    forall t {
      RetirePresence(n, k, now, t);
    }
  }

  lemma RetireLedger(n: Node, k: nat, now: real, late: set<nat>, rejected: nat, known: set<nat>, book: set<nat>)
    requires k < |n.cores| && Ledger(n, late, rejected) && Accounted(n, known) && Within(n, book)
    ensures var r := Retire(n, k, now); Ledger(r, late, rejected) && Accounted(r, known) && Within(r, book)
  {
    hide *;
    var done := RetireRetires(n, k, now);
    var r := Retire(n, k, now);
    RetiredLedger(n, r, done, now, late, rejected);
    RetiredAccounted(n, r, done, now, known, book);
  }

  lemma RetiredLedger(n: Node, r: Node, done: set<nat>, now: real, late: set<nat>, rejected: nat)
    requires Retired(n, r, done, now) && Ledger(n, late, rejected)
    ensures Ledger(r, late, rejected)
  {
    hide Active, Waits;
    RetiredOnce(n, r, done, now, late, rejected);
    FinishCounts(n, done, now);
  }

  lemma RetiredAccounted(n: Node, r: Node, done: set<nat>, now: real, known: set<nat>, book: set<nat>)
    requires Retired(n, r, done, now) && Accounted(n, known) && Within(n, book)
    ensures Accounted(r, known) && Within(r, book)
  {
    hide Active, Waits;
    forall t | t in done
      ensures t in book
    {
      assert Present(n, t);
    }
  }

  /** Every output handed over is counted, and each task's only once. */
  lemma FinishCounts(n: Node, done: set<nat>, now: real)
    requires done !! n.finished.Keys
    ensures |Finish(n, done, now).finished| == |n.finished| + |done|
  {
    var f := Finish(n, done, now).finished;
    assert f.Keys == n.finished.Keys + done;
    assert |f| == |f.Keys| && |n.finished| == |n.finished.Keys|;
  }

  lemma RetirePresence(n: Node, k: nat, now: real, t: nat)
    requires k < |n.cores|
    ensures var s := n.cores[k].active;
      var r := Retire(n, k, now);
      var done := Completed(s, WithActive(n, k, Unfinished(s)).cores);
      && (Active(r, t) ==> Active(n, t)) && (Waits(r, t) <==> Waits(n, t))
      && (t in done ==> Active(n, t) && !Present(r, t))
      && (Present(n, t) && !Present(r, t) ==> t in done)
  {
    var s := n.cores[k].active;
    var m := WithActive(n, k, Unfinished(s));
    assert Has(s, t) ==> Active(n, t);
    ActivePresence(n, k, Unfinished(s), t);
    PresentIsNotAbsent(m, t);
    assert Retire(n, k, now).cores == m.cores;
  }

  lemma PurgeLedger(n: Node, k: nat, now: real, late: set<nat>, rejected: nat, known: set<nat>, book: set<nat>)
    requires k < |n.cores| && Ledger(n, late, rejected) && Accounted(n, known) && Within(n, book)
    ensures var r := Purge(n, k, now); Ledger(r, late, rejected) && Accounted(r, known) && Within(r, book)
  {
    var out := Expired(n.cores[k].active, now);
    ExpiredPresent(n, k, now);
    PurgeIs(n, k, now);
    hide Ledger, Accounted, Within, Purge;
    FailLedger(n, out, late, rejected, known, book);
    RetireLedger(FailAll(n, out), k, now, late, rejected, known, book);
  }

  // ---------- the scheduler's operations ----------

  /** The invariant, and what an operation may add to it. */
  ghost predicate Sound(n: Node, late: set<nat>, rejected: nat, known: set<nat>, book: set<nat>) {
    Ledger(n, late, rejected) && Accounted(n, known) && Within(n, book)
  }

  /** From n on to r: endings are never revised, and nothing new is in flight. */
  ghost predicate Onward(n: Node, r: Node) {
    && |r.cores| == |n.cores| && r.dvfs == n.dvfs
    && (forall t :: t in n.finished ==> t in r.finished && r.finished[t] == n.finished[t])
    && n.failed <= r.failed && r.holding <= n.holding
    && (forall t :: t in n.holding && t !in r.holding ==> t in r.finished || t in r.failed)
    && (forall t :: t in r.finished ==> t in n.finished || t in n.holding)
    && (forall k, a :: 0 <= k < |n.cores| && a in r.cores[k].inFly ==> a in n.cores[k].inFly)
  }

  lemma SamePresence(n: Node, r: Node, late: set<nat>, rejected: nat, known: set<nat>, book: set<nat>)
    requires Sound(n, late, rejected, known, book)
    requires r.finished == n.finished && r.outputs == n.outputs && r.failed == n.failed
    requires r.failures == n.failures && r.holding == n.holding
    requires |r.cores| == |n.cores| && r.dvfs == n.dvfs
    requires forall k | 0 <= k < |n.cores| :: r.cores[k].inFly == n.cores[k].inFly
    requires forall k, t | 0 <= k < |n.cores| :: Has(r.cores[k].active, t) <==> Has(n.cores[k].active, t)
    ensures Sound(r, late, rejected, known, book) && Onward(n, r)
  {
    forall t
      ensures (Active(r, t) <==> Active(n, t)) && (Waits(r, t) <==> Waits(n, t))
    {}
    hide Active, Waits, Has;
  }

  lemma CaughtHas(s: seq<Alloc>, u: seq<Alloc>, t: nat)
    requires |u| == |s| && forall i | 0 <= i < |s| :: u[i].task == s[i].task
    ensures Has(u, t) <==> Has(s, t)
  {
    if Has(s, t) {
      var i :| 0 <= i < |s| && s[i].task == t;
      assert u[i] in u;
    }
    if Has(u, t) {
      var i :| 0 <= i < |u| && u[i].task == t;
      assert s[i] in s;
    }
  }

  /** A new list for core k with the same tasks in the same places. */
  lemma RelistSound(n: Node, k: nat, c: Core, late: set<nat>, rejected: nat, known: set<nat>, book: set<nat>)
    requires k < |n.cores| && Sound(n, late, rejected, known, book) && c.inFly == n.cores[k].inFly
    requires var s := n.cores[k].active; |c.active| == |s| && forall i | 0 <= i < |s| :: c.active[i].task == s[i].task
    ensures var r := n.(cores := n.cores[k := c]); Sound(r, late, rejected, known, book) && Onward(n, r)
  {
    hide Sound, Has, Onward;
    var r := n.(cores := n.cores[k := c]);
    forall j, t | 0 <= j < |n.cores|
      ensures Has(r.cores[j].active, t) <==> Has(n.cores[j].active, t)
    {
      CaughtHas(n.cores[k].active, c.active, t);
    }
    SamePresence(n, r, late, rejected, known, book);
  }

  lemma FailOnward(n: Node, out: set<nat>)
    ensures Onward(n, FailAll(n, out))
  {}

  lemma RetireOnward(n: Node, k: nat, now: real, late: set<nat>, rejected: nat)
    requires k < |n.cores| && Ledger(n, late, rejected)
    ensures Onward(n, Retire(n, k, now))
  {
    hide Retire, Retired, Ledger, Active, Waits;
    RetireShape(n, k, now);
    var done := RetireRetires(n, k, now);
    RetiredOnce(n, Retire(n, k, now), done, now, late, rejected);
  }

  /** Who finishes has not finished before, and held a reservation. */
  lemma RetiredOnce(n: Node, r: Node, done: set<nat>, now: real, late: set<nat>, rejected: nat)
    requires Retired(n, r, done, now) && Ledger(n, late, rejected)
    ensures done !! n.finished.Keys && done <= n.holding
    ensures r.finished == n.finished + (map t | t in done :: now) && r.failed == n.failed
      && r.holding == n.holding - done
  {
    hide Active, Waits;
    forall t | t in done
      ensures t !in n.finished && t in n.holding
    {
      assert Present(n, t) && Active(n, t);
    }
  }

  lemma RetireShape(n: Node, k: nat, now: real)
    requires k < |n.cores|
    ensures var r := Retire(n, k, now);
      r.dvfs == n.dvfs && |r.cores| == |n.cores|
        && forall j | 0 <= j < |n.cores| :: r.cores[j].inFly == n.cores[j].inFly
  {}

  lemma PurgeSound(n: Node, k: nat, now: real, late: set<nat>, rejected: nat, known: set<nat>, book: set<nat>)
    requires k < |n.cores| && Sound(n, late, rejected, known, book)
    ensures Sound(Purge(n, k, now), late, rejected, known, book) && Onward(n, Purge(n, k, now))
  {
    PurgeLedger(n, k, now, late, rejected, known, book);
    PurgeIs(n, k, now);
    var out := Expired(n.cores[k].active, now);
    var n1 := FailAll(n, out);
    FailOnward(n, out);
    ExpiredPresent(n, k, now);
    hide Purge, Retire, Expired, Onward, Ledger, Accounted, Within, Active, Waits, FailAll;
    FailLedger(n, out, late, rejected, known, book);
    RetireOnward(n1, k, now, late, rejected);
    OnwardTrans(n, n1, Purge(n, k, now));
  }

  lemma ExpiredPresent(n: Node, k: nat, now: real)
    requires k < |n.cores|
    ensures forall t :: t in Expired(n.cores[k].active, now) ==> Present(n, t)
  {
    forall t | t in Expired(n.cores[k].active, now)
      ensures Present(n, t)
    {
      assert Has(n.cores[k].active, t);
    }
  }

  lemma OverdueSound(n: Node, k: nat, now: real, late: set<nat>, rejected: nat, known: set<nat>, book: set<nat>)
    requires k < |n.cores| && Sound(n, late, rejected, known, book)
    ensures var r := FailAll(n, Overdue(n.cores[k].inFly, now)); Sound(r, late, rejected, known, book) && Onward(n, r)
  {
    var out := Overdue(n.cores[k].inFly, now);
    forall t | t in out
      ensures Present(n, t)
    {
      assert Has(n.cores[k].inFly, t);
    }
    FailLedger(n, out, late, rejected, known, book);
  }

  lemma OnwardTrans(n: Node, m: Node, r: Node)
    requires Onward(n, m) && Onward(m, r)
    ensures Onward(n, r)
  {}

  lemma SweptSound(n: Node, k: nat, now: real, late: set<nat>, rejected: nat, known: set<nat>, book: set<nat>)
    requires k < |n.cores| && Sound(n, late, rejected, known, book)
    ensures Sound(Swept(n, k, now), late, rejected, known, book) && Onward(n, Swept(n, k, now))
  {
    hide Sound, Onward, Purge, FailAll, Swept;
    var n1 := WithActive(n, k, UpdateAll(n.cores[k].active, now));
    RelistSound(n, k, n1.cores[k], late, rejected, known, book);
    PurgeSound(n1, k, now, late, rejected, known, book);
    var n2 := Purge(n1, k, now);
    OverdueSound(n2, k, now, late, rejected, known, book);
    SweptIs(n, k, now);
    OnwardTrans(n, n1, n2);
    OnwardTrans(n, n2, Swept(n, k, now));
  }

  lemma RatedTasks(c: Core, now: real, dvfs: bool)
    requires dvfs ==> forall a :: a in c.active + c.inFly ==> now < a.deadline
    ensures var d := Rated(c, now, dvfs);
      d.inFly == c.inFly && |d.active| == |c.active|
        && forall i | 0 <= i < |c.active| :: d.active[i].task == c.active[i].task
  {}

  lemma SetRateSound(n: Node, k: nat, now: real, late: set<nat>, rejected: nat, known: set<nat>, book: set<nat>)
    requires k < |n.cores| && Sound(n, late, rejected, known, book)
    ensures Sound(SetRate(n, k, now), late, rejected, known, book) && Onward(n, SetRate(n, k, now))
  {
    hide Sound, Onward, Swept, Rated, SetRate;
    if n.dvfs {
      SweptSound(n, k, now, late, rejected, known, book);
    } else {
      RelistSound(n, k, n.cores[k], late, rejected, known, book);
      assert n.(cores := n.cores[k := n.cores[k]]) == n;
    }
    var n1 := if n.dvfs then Swept(n, k, now) else n;
    RatedTasks(n1.cores[k], now, n.dvfs);
    RelistSound(n1, k, Rated(n1.cores[k], now, n.dvfs), late, rejected, known, book);
    SetRateIs(n, k, now);
    OnwardTrans(n, n1, SetRate(n, k, now));
  }

  lemma RefreshSound(n: Node, k: nat, now: real, late: set<nat>, rejected: nat, known: set<nat>, book: set<nat>)
    requires k < |n.cores| && Sound(n, late, rejected, known, book)
    ensures Sound(Refresh(n, k, now).0, late, rejected, known, book) && Onward(n, Refresh(n, k, now).0)
  {
    var c := n.cores[k];
    if c.active != [] {
      hide Sound, Onward, Purge, SetRate, Refresh;
      var n1 := WithActive(n, k, RateAll(c.active, now, c.current));
      RelistSound(n, k, n1.cores[k], late, rejected, known, book);
      PurgeSound(n1, k, now, late, rejected, known, book);
      var n2 := Purge(n1, k, now);
      SetRateSound(n2, k, now, late, rejected, known, book);
      RefreshIs(n, k, now);
      OnwardTrans(n, n1, n2);
      OnwardTrans(n, n2, SetRate(n2, k, now));
    }
  }

  lemma StartHas(s: seq<Alloc>, t: nat, now: real, u: nat)
    ensures Has(Starting(s, t, now), u) <==> Has(s, u) && u == t
    ensures Has(Drop(s, {t}), u) <==> Has(s, u) && u != t
  {
    DropHas(s, {t}, u);
    if Has(s, t) {
      var b :| b in s && b.task == t;
      assert b.(since := now) in Starting(s, t, now);
    }
  }

  lemma StartSound(n: Node, k: nat, now: real, t: nat,
                   late: set<nat>, rejected: nat, known: set<nat>, book: set<nat>)
    requires k < |n.cores| && Sound(n, late, rejected, known, book) && (t in n.holding || !Waits(n, t))
    ensures var r := StartOn(n, k, now, t);
      Sound(r, late, rejected, known, book) && Onward(n, r) && !Has(r.cores[k].inFly, t)
  {
    var r := StartOn(n, k, now, t);
    var c := n.cores[k];
    forall u
      ensures (Active(r, u) ==> Active(n, u) || (u == t && Waits(n, t)))
      ensures (Present(r, u) <==> Present(n, u)) && (Waits(r, u) ==> Waits(n, u))
      ensures u == t ==> !Has(r.cores[k].inFly, t)
    {
      StartHas(c.inFly, t, now, u);
      JoinHas(c.active, Starting(c.inFly, t, now), u);
      StartPresence(n, k, now, t, u);
    }
    hide Active, Waits, Has;
  }

  lemma JoinHas(s: seq<Alloc>, u: seq<Alloc>, t: nat)
    ensures Has(s + u, t) <==> Has(s, t) || Has(u, t)
  {}

  lemma StartPresence(n: Node, k: nat, now: real, t: nat, u: nat)
    requires k < |n.cores|
    requires var c, d := n.cores[k], StartOn(n, k, now, t).cores[k];
      && (Has(d.active, u) <==> Has(c.active, u) || (u == t && Has(c.inFly, t)))
      && (Has(d.inFly, u) <==> Has(c.inFly, u) && u != t)
    ensures var r := StartOn(n, k, now, t);
      && (Active(r, u) ==> Active(n, u) || (u == t && Waits(n, t)))
      && (Present(r, u) <==> Present(n, u)) && (Waits(r, u) ==> Waits(n, u))
  {
    hide Has, Starting;
    var r := StartOn(n, k, now, t);
    if Active(n, u) {
      var j :| 0 <= j < |n.cores| && Has(n.cores[j].active, u);
      assert Has(r.cores[j].active, u);
    } else if Waits(n, u) {
      var j :| 0 <= j < |n.cores| && Has(n.cores[j].inFly, u);
      assert Has(r.cores[j].active, u) || Has(r.cores[j].inFly, u);
    }
  }

  /** A task being started holds its reservation for as long as it waits anywhere. */
  ghost predicate Holds(n: Node, start: Option<nat>) {
    start.Some? ==> start.value in n.holding || !Waits(n, start.value)
  }

  lemma HoldsOn(n: Node, r: Node, start: Option<nat>, late: set<nat>, rejected: nat, known: set<nat>, book: set<nat>)
    requires Holds(n, start) && Onward(n, r) && Sound(r, late, rejected, known, book)
    ensures Holds(r, start)
  {
    if start.Some? && Waits(r, start.value) {
      assert Present(r, start.value);
      var k :| 0 <= k < |r.cores| && Has(r.cores[k].inFly, start.value);
      var a :| a in r.cores[k].inFly && a.task == start.value;
      assert a in n.cores[k].inFly && Has(n.cores[k].inFly, start.value);
    }
  }

  lemma TurnSound(n: Node, k: nat, now: real, start: Option<nat>,
                  late: set<nat>, rejected: nat, known: set<nat>, book: set<nat>)
    requires k < |n.cores| && Sound(n, late, rejected, known, book) && Holds(n, start)
    ensures var r := Turn(n, k, now, start).0;
      && Sound(r, late, rejected, known, book) && Onward(n, r) && Holds(r, start)
      && (start.Some? ==> !Has(r.cores[k].inFly, start.value))
  {
    var n1 := if start.Some? then StartOn(n, k, now, start.value) else n;
    if start.Some? { StartSound(n, k, now, start.value, late, rejected, known, book); }
    assert Onward(n, n1);
    hide Sound, Refresh, StartOn, Onward, Has, Holds;
    RefreshSound(n1, k, now, late, rejected, known, book);
    var r := Turn(n, k, now, start).0;
    TurnIs(n, k, now, start);
    OnwardTrans(n, n1, r);
    HoldsOn(n, r, start, late, rejected, known, book);
    if start.Some? {
      StillStarted(n1, r, k, start.value);
    }
  }

  /** Starting a task everywhere: nothing of it waits on the cores from k on. */
  lemma {:induction false} RunCoresSound(n: Node, tm: Timer, k: nat, now: real, start: Option<nat>,
                                         late: set<nat>, rejected: nat, known: set<nat>, book: set<nat>)
    requires k <= |n.cores| && Sound(n, late, rejected, known, book) && Holds(n, start)
    ensures var r := RunCores(n, tm, k, now, start).0;
      && Sound(r, late, rejected, known, book) && Onward(n, r)
      && (start.Some? ==> forall j | k <= j < |n.cores| :: !Has(r.cores[j].inFly, start.value))
    decreases |n.cores| - k
  {
    hide Sound, Has, Holds, Turn, Schedule;
    if k < |n.cores| {
      TurnSound(n, k, now, start, late, rejected, known, book);
      var (n1, delay) := Turn(n, k, now, start);
      var tm1 := Schedule(tm, now, delay);
      RunCoresSound(n1, tm1, k + 1, now, start, late, rejected, known, book);
      var r := RunCores(n1, tm1, k + 1, now, start).0;
      RunCoresNext(n, tm, k, now, start);
      OnwardTrans(n, n1, r);
      if start.Some? {
        StillStarted(n1, r, k, start.value);
      }
    }
  }

  lemma StillStarted(n: Node, r: Node, k: nat, t: nat)
    requires Onward(n, r) && k < |n.cores| && !Has(n.cores[k].inFly, t)
    ensures !Has(r.cores[k].inFly, t)
  {}

  // ---------- admission ----------

  /** A task being placed: so far it can only wait, with its deadline ahead. */
  ghost predicate Unborn(n: Node, t: nat, now: real) {
    && !Active(n, t) && t !in n.finished && t !in n.failed && t !in n.holding
    && forall k, a :: 0 <= k < |n.cores| && a in n.cores[k].inFly && a.task == t ==> now < a.deadline
  }

  lemma ExpiredHas(s: seq<Alloc>, now: real, t: nat)
    ensures t in Expired(s, now) ==> Has(s, t)
  {}

  lemma SweptSpares(n: Node, k: nat, now: real, t: nat)
    requires k < |n.cores| && Unborn(n, t, now)
    ensures t !in Swept(n, k, now).failed
  {
    var s := n.cores[k].active;
    var u := UpdateAll(s, now);
    CaughtHas(s, u, t);
    SweptIs(n, k, now);
    hide Unfinished, Completed;
    var n1 := WithActive(n, k, u);
    ExpiredHas(u, now, t);
    assert forall a :: a in Purge(n1, k, now).cores[k].inFly ==> a in n.cores[k].inFly;
  }

  lemma SweptUnborn(n: Node, k: nat, now: real, t: nat,
                    late: set<nat>, rejected: nat, known: set<nat>, book: set<nat>)
    requires k < |n.cores| && Sound(n, late, rejected, known, book) && Unborn(n, t, now)
    ensures var r := Swept(n, k, now);
      Sound(r, late, rejected, known, book) && Onward(n, r) && Unborn(r, t, now)
  {
    SweptSound(n, k, now, late, rejected, known, book);
    SweptSpares(n, k, now, t);
    hide Swept, Active;
  }

  lemma AssignSound(n: Node, k: nat, a: Alloc, now: real,
                    late: set<nat>, rejected: nat, known: set<nat>, book: set<nat>)
    requires k < |n.cores| && Sound(n, late, rejected, known, book) && Unborn(n, a.task, now)
    requires now < a.deadline && a.task in book
    ensures var r := Assign(n, k, a);
      && Sound(r, late, rejected, known, book) && Unborn(r, a.task, now) && Waits(r, a.task)
      && (forall u :: u != a.task ==> (Waits(r, u) <==> Waits(n, u)))
  {
    var r := Assign(n, k, a);
    forall u
      ensures Active(r, u) <==> Active(n, u)
      ensures Waits(r, u) <==> Waits(n, u) || u == a.task
    {
      AssignPresence(n, k, a, u);
    }
    hide Active, Waits, Has;
  }

  lemma AssignPresence(n: Node, k: nat, a: Alloc, u: nat)
    requires k < |n.cores|
    ensures Active(Assign(n, k, a), u) <==> Active(n, u)
    ensures Waits(Assign(n, k, a), u) <==> Waits(n, u) || u == a.task
  {
    var r := Assign(n, k, a);
    JoinHas(n.cores[k].inFly, [a], u);
    assert a in [a];
    assert Has([a], u) <==> u == a.task;
    forall j | 0 <= j < |n.cores|
      ensures r.cores[j].active == n.cores[j].active
      ensures Has(r.cores[j].inFly, u) <==> Has(n.cores[j].inFly, u) || (j == k && u == a.task)
    {}
    hide Has;
    if Waits(n, u) {
      var j :| 0 <= j < |n.cores| && Has(n.cores[j].inFly, u);
      assert Has(r.cores[j].inFly, u);
    }
    if u == a.task {
      assert Has(r.cores[k].inFly, u);
    }
    if Active(n, u) {
      var j :| 0 <= j < |n.cores| && Has(n.cores[j].active, u);
      assert Has(r.cores[j].active, u);
    }
  }

  /** What placing task t does to the others: endings are never revised, and t alone starts to wait. */
  ghost predicate Placing(n: Node, r: Node, t: nat) {
    && |r.cores| == |n.cores| && r.dvfs == n.dvfs
    && (forall u :: u in n.finished ==> u in r.finished && r.finished[u] == n.finished[u])
    && (forall u :: u in r.finished ==> u in n.finished || u in n.holding)
    && n.failed <= r.failed && r.holding <= n.holding
    && (forall u :: u != t && Waits(r, u) ==> Waits(n, u))
  }

  lemma OnwardWaits(n: Node, r: Node, u: nat)
    requires Onward(n, r) && Waits(r, u)
    ensures Waits(n, u)
  {
    var k :| 0 <= k < |r.cores| && Has(r.cores[k].inFly, u);
    var a :| a in r.cores[k].inFly && a.task == u;
    assert Has(n.cores[k].inFly, u);
  }

  lemma OnwardPlacing(n: Node, r: Node, t: nat)
    requires Onward(n, r)
    ensures Placing(n, r, t)
  {
    forall u | Waits(r, u)
      ensures Waits(n, u)
    {
      OnwardWaits(n, r, u);
    }
    hide Waits;
  }

  lemma PlacingTrans(n: Node, m: Node, r: Node, t: nat)
    requires Placing(n, m, t) && Placing(m, r, t)
    ensures Placing(n, r, t)
  {
    hide Waits;
  }

  lemma {:induction false} PlaceFromSound(n: Node, a: Alloc, now: real, k: nat,
                                          late: set<nat>, rejected: nat, known: set<nat>, book: set<nat>)
    requires k <= |n.cores| && Sound(n, late, rejected, known, book) && Unborn(n, a.task, now)
    requires now < a.deadline && a.task in book
    ensures var (r, ok) := PlaceFrom(n, a, now, k);
      && Sound(r, late, rejected, known, book) && Unborn(r, a.task, now) && Placing(n, r, a.task)
      && (ok ==> Waits(r, a.task))
    decreases |n.cores| - k
  {
    hide Sound, Unborn, Waits, Placing, Onward, Swept, Admits, PlaceFrom;
    PlaceFromIs(n, a, now, k);
    if k == |n.cores| {
      PlacingRefl(n, a.task);
    } else {
      SweptUnborn(n, k, now, a.task, late, rejected, known, book);
      var n1 := Swept(n, k, now);
      OnwardPlacing(n, n1, a.task);
      if Admits(n1.cores[k], a, now) {
        AssignSound(n1, k, a, now, late, rejected, known, book);
        AssignPlacing(n1, k, a);
        PlacingTrans(n, n1, Assign(n1, k, a), a.task);
      } else {
        PlaceFromSound(n1, a, now, k + 1, late, rejected, known, book);
        PlacingTrans(n, n1, PlaceFrom(n1, a, now, k + 1).0, a.task);
      }
    }
  }

  lemma PlacingRefl(n: Node, t: nat)
    ensures Placing(n, n, t)
  {}

  lemma AssignPlacing(n: Node, k: nat, a: Alloc)
    requires k < |n.cores|
    ensures Placing(n, Assign(n, k, a), a.task)
  {
    forall u
    {
      AssignPresence(n, k, a, u);
    }
    hide Waits;
  }

  lemma WithdrawPresence(n: Node, t: nat, u: nat)
    ensures Active(Withdraw(n, t), u) <==> Active(n, u) && u != t
    ensures Waits(Withdraw(n, t), u) <==> Waits(n, u) && u != t
  {
    FailPresence(n, {t}, u);
    assert Withdraw(n, t).cores == FailAll(n, {t}).cores;
  }

  /** Taking an unborn task off again. */
  lemma WithdrawSound(n: Node, t: nat, now: real, late: set<nat>, rejected: nat, known: set<nat>, book: set<nat>)
    requires Sound(n, late, rejected, known, book) && Unborn(n, t, now) && t !in known
    ensures var r := Withdraw(n, t);
      && Sound(r, late, rejected, known, book - {t}) && Placing(n, r, t) && Unborn(r, t, now) && !Present(r, t)
  {
    var r := Withdraw(n, t);
    forall u
    {
      WithdrawPresence(n, t, u);
    }
    hide Active, Waits, Has;
  }

  lemma {:induction false} PlaceAllocsSound(n: Node, t: Task, now: real, i: nat,
                                            late: set<nat>, rejected: nat, known: set<nat>, book: set<nat>)
    requires i <= |t.loads| && Sound(n, late, rejected, known, book) && Unborn(n, t.id, now)
    requires now < t.deadline && t.id in book && t.id !in known && |t.loads| > 0 && (i > 0 ==> Waits(n, t.id))
    ensures var (r, ok) := PlaceAllocs(n, t, now, i);
      && Sound(r, late, rejected, known, book) && Unborn(r, t.id, now) && Placing(n, r, t.id)
      && (ok <==> Waits(r, t.id))
    decreases |t.loads| - i
  {
    hide Sound, Unborn, Waits, Placing, Withdraw, PlaceFrom;
    if i == |t.loads| {
      PlacingRefl(n, t.id);
    } else {
      PlaceFromSound(n, Fresh(t, i), now, 0, late, rejected, known, book);
      var (n1, ok) := PlaceFrom(n, Fresh(t, i), now, 0);
      if ok {
        PlaceAllocsSound(n1, t, now, i + 1, late, rejected, known, book);
        PlacingTrans(n, n1, PlaceAllocs(n1, t, now, i + 1).0, t.id);
      } else {
        WithdrawSound(n1, t.id, now, late, rejected, known, book);
        MoreBook(Withdraw(n1, t.id), late, rejected, known, book - {t.id}, book);
        PlacingTrans(n, n1, Withdraw(n1, t.id), t.id);
      }
    }
  }

  lemma MoreBook(n: Node, late: set<nat>, rejected: nat, known: set<nat>, book: set<nat>, more: set<nat>)
    requires Sound(n, late, rejected, known, book) && book <= more
    ensures Sound(n, late, rejected, known, more)
  {}

  // ---------- whole runs ----------

  /** The tasks received and started in the run although they had failed in flight. */
  function Late(s: Sys, run: seq<Event>): set<nat>
    requires Valid(s, run)
    decreases |run|
  {
    if run == [] then {} else LateNow(s, run[0]) + Late(Step(s, run[0]), run[1..])
  }

  function LateNow(s: Sys, e: Event): set<nat> {
    if e.Arrive? && e.task.id in s.node.failed && e.fits then {e.task.id} else {}
  }

  /** How often in the run a task that had failed in flight was received and turned away. */
  function Rejected(s: Sys, run: seq<Event>): nat
    requires Valid(s, run)
    decreases |run|
  {
    if run == [] then 0 else RejectedNow(s, run[0]) + Rejected(Step(s, run[0]), run[1..])
  }

  function RejectedNow(s: Sys, e: Event): nat {
    if e.Arrive? && e.task.id in s.node.failed && !e.fits then 1 else 0
  }

  /** flying: tasks still travelling hold nothing, and whatever waits on a core is one of them. */
  ghost predicate Flights(n: Node, flying: set<nat>) {
    && (forall t :: t in flying ==> t !in n.holding && t !in n.finished)
    && (forall t :: Waits(n, t) ==> t in flying)
  }

  ghost predicate Inv(s: Sys, late: set<nat>, rejected: nat) {
    && Sound(s.node, late, rejected, s.known.Keys, s.known.Keys)
    && Flights(s.node, s.flying) && s.flying <= s.known.Keys
  }

  /** Endings are never revised. */
  ghost predicate Final(n: Node, r: Node) {
    && n.failed <= r.failed
    && forall t :: t in n.finished ==> t in r.finished && r.finished[t] == n.finished[t]
  }

  lemma NewUnborn(n: Node, t: nat, now: real, late: set<nat>, rejected: nat, known: set<nat>)
    requires Sound(n, late, rejected, known, known) && t !in known
    ensures Unborn(n, t, now) && !Waits(n, t)
  {
    forall k, a | 0 <= k < |n.cores| && a in n.cores[k].inFly
      ensures Waits(n, a.task)
    {
      assert Has(n.cores[k].inFly, a.task);
    }
    hide Active, Waits;
  }

  /** Placing a new task, successfully or not. */
  lemma TrySound(n: Node, t: Task, now: real, fits: bool, late: set<nat>, rejected: nat, known: set<nat>)
    requires Sound(n, late, rejected, known, known) && t.id !in known && now < t.deadline && |t.loads| > 0
    ensures var (r, ok) := TrySchedule(n, t, now, fits);
      && Sound(r, late, rejected, known, known + {t.id}) && Unborn(r, t.id, now)
      && Placing(n, r, t.id) && (ok <==> Waits(r, t.id))
  {
    NewUnborn(n, t.id, now, late, rejected, known);
    hide Sound, Unborn, Waits, Placing, PlaceAllocs;
    MoreBook(n, late, rejected, known, known, known + {t.id});
    if fits {
      PlaceAllocsSound(n, t, now, 0, late, rejected, known, known + {t.id});
    } else {
      PlacingRefl(n, t.id);
    }
  }

  /** Placed, the task counts as known; not placed, it is nowhere. */
  lemma NowAccounted(n: Node, t: nat, now: real, known: set<nat>, late: set<nat>, rejected: nat)
    requires Sound(n, late, rejected, known, known + {t}) && Unborn(n, t, now) && t !in known
    ensures if Waits(n, t) then Sound(n, late, rejected, known + {t}, known + {t})
      else Sound(n, late, rejected, known, known)
  {
    hide Active, Waits;
  }

  lemma PlacingFlights(n: Node, r: Node, t: nat, flying: set<nat>)
    requires Placing(n, r, t) && Flights(n, flying)
    ensures Final(n, r)
      && (if Waits(r, t) then t !in r.holding && t !in r.finished ==> Flights(r, flying + {t}) else Flights(r, flying))
    ensures forall u :: u in flying ==> u !in r.holding && u !in r.finished
    ensures forall u :: u != t && Waits(r, u) ==> u in flying
  {
    hide Waits;
  }

  lemma TestSound(n: Node, t: Task, now: real, fits: bool,
                  late: set<nat>, rejected: nat, known: set<nat>, flying: set<nat>)
    requires Sound(n, late, rejected, known, known) && Flights(n, flying)
    requires t.id !in known && now < t.deadline && |t.loads| > 0
    ensures var r := Probe(n, t, now, fits).0;
      Sound(r, late, rejected, known, known) && Flights(r, flying) && Final(n, r)
  {
    hide Sound, Flights, Unborn, Waits, Placing, Final, TrySchedule, Probe, Withdraw;
    TrySound(n, t, now, fits, late, rejected, known);
    ProbeIs(n, t, now, fits);
    var (m, ok) := TrySchedule(n, t, now, fits);
    var r := Probe(n, t, now, fits).0;
    if ok {
      WithdrawSound(m, t.id, now, late, rejected, known, known + {t.id});
      assert known + {t.id} - {t.id} == known;
      PlacingTrans(n, m, r, t.id);
      AbsentWaits(r, t.id);
    } else {
      NowAccounted(m, t.id, now, known, late, rejected);
    }
    PlacingFlights(n, r, t.id, flying);
  }

  lemma AbsentWaits(n: Node, t: nat)
    requires !Present(n, t)
    ensures !Waits(n, t)
  {}

  lemma UnbornFree(n: Node, t: nat, now: real)
    requires Unborn(n, t, now)
    ensures t !in n.finished && t !in n.failed && t !in n.holding
  {}

  lemma DispatchSound(n: Node, t: Task, now: real, fits: bool,
                      late: set<nat>, rejected: nat, known: set<nat>, flying: set<nat>)
    requires Sound(n, late, rejected, known, known) && Flights(n, flying)
    requires t.id !in known && now < t.deadline && |t.loads| > 0
    ensures var (r, ok) := TrySchedule(n, t, now, fits);
      var known1, flying1 := if ok then known + {t.id} else known, if ok then flying + {t.id} else flying;
      Sound(r, late, rejected, known1, known1) && Flights(r, flying1) && Final(n, r)
  {
    hide Sound, Flights, Unborn, Waits, Placing, Final, TrySchedule;
    TrySound(n, t, now, fits, late, rejected, known);
    var (r, ok) := TrySchedule(n, t, now, fits);
    NowAccounted(r, t.id, now, known, late, rejected);
    PlacingFlights(n, r, t.id, flying);
    UnbornFree(r, t.id, now);
  }

  /** Starting task t everywhere. */
  lemma StartTask(n: Node, tm: Timer, t: nat, now: real, late: set<nat>, rejected: nat, known: set<nat>,
                  flying: set<nat>)
    requires Sound(n, late, rejected, known, known) && t in n.holding
    requires forall u :: u in flying && u != t ==> u !in n.holding && u !in n.finished
    requires forall u :: u != t && Waits(n, u) ==> u in flying
    ensures var r := RunCores(n, tm, 0, now, Some(t)).0;
      Sound(r, late, rejected, known, known) && Onward(n, r) && Flights(r, flying - {t})
  {
    hide RunCores, Sound;
    RunCoresSound(n, tm, 0, now, Some(t), late, rejected, known, known);
    var r := RunCores(n, tm, 0, now, Some(t)).0;
    assert !Waits(r, t);
    forall u | Waits(r, u)
      ensures u in flying - {t}
    {
      OnwardWaits(n, r, u);
    }
    hide Waits;
  }

  /** A task that has not ended fails on arrival. */
  lemma FailOne(n: Node, t: nat, late: set<nat>, rejected: nat, known: set<nat>)
    requires Sound(n, late, rejected, known, known + {t}) && t !in n.failed && t !in n.finished && t !in late
    ensures Sound(FailAll(n, {t}), late, rejected, known + {t}, known + {t})
  {
    hide Active, Waits, FailAll;
    FailShape(n, t);
    forall u
    {
      FailPresence(n, {t}, u);
    }
    assert |n.failed + {t}| == |n.failed| + 1;
  }

  lemma FailShape(n: Node, t: nat)
    ensures var r := FailAll(n, {t});
      && r.failed == n.failed + {t} && r.failures == n.failures + 1 && r.holding == n.holding - {t}
      && r.finished == n.finished && r.outputs == n.outputs
  {}

  lemma FailFlights(n: Node, t: nat, flying: set<nat>)
    requires forall u :: u in flying ==> u !in n.holding && u !in n.finished
    requires forall u :: u != t && Waits(n, u) ==> u in flying
    ensures Flights(FailAll(n, {t}), flying - {t})
  {
    forall u
    {
      FailPresence(n, {t}, u);
    }
    hide Waits;
  }

  lemma OnwardFinal(n: Node, r: Node)
    requires Onward(n, r)
    ensures Final(n, r)
  {}

  lemma FinalTrans(n: Node, m: Node, r: Node)
    requires Final(n, m) && Final(m, r)
    ensures Final(n, r)
  {}

  /** Node n with a reservation more. */
  function Holding(n: Node, t: nat): Node {
    n.(holding := n.holding + {t})
  }

  lemma HoldingSound(n: Node, t: nat, late: set<nat>, rejected: nat, known: set<nat>)
    requires Sound(n, late, rejected, known, known)
    requires Waits(n, t) || t in n.failed
    ensures Sound(Holding(n, t), if t in n.failed then late + {t} else late, rejected, known, known)
    ensures Final(n, Holding(n, t))
  {
    forall u
      ensures (Active(Holding(n, t), u) <==> Active(n, u)) && (Waits(Holding(n, t), u) <==> Waits(n, u))
    {}
    hide Active, Waits;
  }

  /** A task that waits, or failed while it travelled, is received and started. */
  lemma StartSoundly(n: Node, tm: Timer, t: nat, now: real,
                     late: set<nat>, rejected: nat, known: set<nat>, flying: set<nat>)
    requires Sound(n, late, rejected, known, known) && (Waits(n, t) || t in n.failed)
    requires forall u :: u in flying && u != t ==> u !in n.holding && u !in n.finished
    requires forall u :: u != t && Waits(n, u) ==> u in flying
    ensures var r := RunCores(Holding(n, t), tm, 0, now, Some(t)).0;
      Sound(r, if t in n.failed then late + {t} else late, rejected, known, known) && Final(n, r)
        && Flights(r, flying - {t})
  {
    var m := Holding(n, t);
    forall u
      ensures Waits(m, u) <==> Waits(n, u)
    {}
    hide RunCores, Sound, Waits, Flights, Final, Onward;
    var late1 := if t in n.failed then late + {t} else late;
    HoldingSound(n, t, late, rejected, known);
    StartTask(m, tm, t, now, late1, rejected, known, flying);
    var r := RunCores(m, tm, 0, now, Some(t)).0;
    OnwardFinal(m, r);
    FinalTrans(n, m, r);
  }

  /** A task that failed while it travelled is received and turned away. */
  lemma RejectLate(n: Node, t: nat, late: set<nat>, rejected: nat, known: set<nat>, flying: set<nat>)
    requires Sound(n, late, rejected, known, known) && t in n.failed && Flights(n, flying) && t in flying
    ensures Sound(FailAll(n, {t}), late, rejected + 1, known, known) && Flights(FailAll(n, {t}), flying - {t})
    ensures Final(n, FailAll(n, {t}))
  {
    forall u
    {
      FailPresence(n, {t}, u);
    }
    hide Active, Waits;
    assert n.failed + {t} == n.failed;
    assert |{t}| == 1;
  }

  lemma ArriveSound(s: Sys, t: Task, fitsProbe: bool, fits: bool, late: set<nat>, rejected: nat)
    requires Inv(s, late, rejected) && Enabled(s, Arrive(t, fitsProbe, fits))
    ensures var e := Arrive(t, fitsProbe, fits);
      var s1 := Step(s, e);
      Inv(s1, late + LateNow(s, e), rejected + RejectedNow(s, e)) && Final(s.node, s1.node)
  {
    hide Sound, Flights, Unborn, Waits, Placing, Final, TrySchedule, FailAll, RunCores, Receive;
    ReceiveIs(s.node, s.timer, t, s.now, t.id in s.known, fitsProbe, fits);
    var n, known, now := s.node, s.known.Keys, s.now;
    assert s.known[t.id := t].Keys == known + {t.id};
    FlightsFree(n, s.flying);
    var e := Arrive(t, fitsProbe, fits);
    var s1 := Step(s, e);
    assert s1.flying == s.flying - {t.id} && s1.known.Keys == known + {t.id};
    assert LateNow(s, e) == {} ==> late + LateNow(s, e) == late;
    if t.id in s.known {
      assert known + {t.id} == known;
      WaitsOrFailed(s, t.id, late, rejected);
      if fits {
        StartSoundly(n, s.timer, t.id, now, late, rejected, known, s.flying);
      } else if t.id in n.failed {
        RejectLate(n, t.id, late, rejected, known, s.flying);
      } else {
        FailOne(n, t.id, late, rejected, known);
        FailFlights(n, t.id, s.flying);
        FailFinal(n, t.id);
      }
    } else {
      KnownFailed(n, t.id, late, rejected, known);
      TrySound(n, t, now, fitsProbe, late, rejected, known);
      var (m, ok) := TrySchedule(n, t, now, fitsProbe);
      NowAccounted(m, t.id, now, known, late, rejected);
      PlacingFlights(n, m, t.id, s.flying);
      UnbornFree(m, t.id, now);
      if ok && fits {
        StartSoundly(m, s.timer, t.id, now, late, rejected, known + {t.id}, s.flying);
        assert s1.node == RunCores(Holding(m, t.id), s.timer, 0, now, Some(t.id)).0;
        FinalTrans(n, m, s1.node);
      } else {
        LateFailed(m, late, rejected, known, known + {t.id});
        FailOne(m, t.id, late, rejected, known);
        FailFlights(m, t.id, s.flying);
        FailFinal(m, t.id);
        assert s1.node == FailAll(m, {t.id});
        FinalTrans(n, m, s1.node);
      }
    }
  }

  lemma FlightsFree(n: Node, flying: set<nat>)
    requires Flights(n, flying)
    ensures forall u :: u in flying ==> u !in n.holding && u !in n.finished
    ensures forall u :: Waits(n, u) ==> u in flying
  {}

  lemma FailFinal(n: Node, t: nat)
    ensures Final(n, FailAll(n, {t}))
  {}

  lemma LateFailed(n: Node, late: set<nat>, rejected: nat, known: set<nat>, book: set<nat>)
    requires Sound(n, late, rejected, known, book)
    ensures late <= n.failed
  {}

  lemma KnownFailed(n: Node, t: nat, late: set<nat>, rejected: nat, known: set<nat>)
    requires Sound(n, late, rejected, known, known) && t !in known
    ensures t !in n.failed
  {}

  lemma WaitsOrFailed(s: Sys, t: nat, late: set<nat>, rejected: nat)
    requires Inv(s, late, rejected) && t in s.flying
    ensures (t in s.node.failed || Waits(s.node, t)) && t !in s.node.finished && (t !in s.node.failed ==> t !in late)
  {
    hide Active, Waits;
  }

  lemma StepSound(s: Sys, e: Event, late: set<nat>, rejected: nat)
    requires Inv(s, late, rejected) && Enabled(s, e)
    ensures var s1 := Step(s, e);
      Inv(s1, late + LateNow(s, e), rejected + RejectedNow(s, e)) && Final(s.node, s1.node)
  {
    hide Sound, Flights, Final, RunCores, TrySchedule, Probe, Receive;
    assert !e.Arrive? ==> late + LateNow(s, e) == late;
    match e {
      case Advance(_) => FinalRefl(s.node);
      case Fire =>
        HandleSound(s.node, s.timer.(pending := None), s.now, late, rejected, s.known.Keys, s.flying);
        HandleIs(s.node, s.timer.(pending := None), s.now);
      case Test(t, f) => TestSound(s.node, t, s.now, f, late, rejected, s.known.Keys, s.flying);
      case Dispatch(t, f) =>
        DispatchSound(s.node, t, s.now, f, late, rejected, s.known.Keys, s.flying);
        assert s.known[t.id := t].Keys == s.known.Keys + {t.id};
      case Resize(k, mips) => ResizeSound(s, k, mips, late, rejected);
      case Arrive(t, f, g) => ArriveSound(s, t, f, g, late, rejected);
    }
  }

  lemma ResizeSound(s: Sys, k: nat, mips: real, late: set<nat>, rejected: nat)
    requires Inv(s, late, rejected) && Enabled(s, Resize(k, mips))
    ensures var s1 := Step(s, Resize(k, mips)); Inv(s1, late, rejected) && Final(s.node, s1.node)
  {
    var n, r := s.node, Resized(s.node, k, mips);
    forall j, t | 0 <= j < |n.cores|
      ensures Has(r.cores[j].active, t) <==> Has(n.cores[j].active, t)
      ensures r.cores[j].inFly == n.cores[j].inFly
    {}
    hide Sound, Has, Onward;
    SamePresence(n, r, late, rejected, s.known.Keys, s.known.Keys);
    assert forall t :: Waits(r, t) <==> Waits(n, t);
  }

  lemma FinalRefl(n: Node)
    ensures Final(n, n)
  {}

  lemma HandleSound(n: Node, tm: Timer, now: real,
                    late: set<nat>, rejected: nat, known: set<nat>, flying: set<nat>)
    requires Sound(n, late, rejected, known, known) && Flights(n, flying)
    ensures var r := RunCores(n, tm, 0, now, None).0;
      Sound(r, late, rejected, known, known) && Flights(r, flying) && Final(n, r)
  {
    hide Sound, RunCores, Final;
    var r := RunCores(n, tm, 0, now, None).0;
    RunCoresSound(n, tm, 0, now, None, late, rejected, known, known);
    OnwardFinal(n, r);
    forall u | Waits(r, u)
      ensures u in flying
    {
      OnwardWaits(n, r, u);
    }
    hide Waits;
  }

  lemma {:induction false} RunSound(s: Sys, run: seq<Event>, late: set<nat>, rejected: nat)
    requires Inv(s, late, rejected) && Valid(s, run)
    ensures Inv(Run(s, run), late + Late(s, run), rejected + Rejected(s, run)) && Final(s.node, Run(s, run).node)
    decreases |run|
  {
    hide Inv, Final, Step, LateNow, RejectedNow;
    if run == [] {
      FinalRefl(s.node);
      assert late + {} == late;
    } else {
      var e := run[0];
      StepSound(s, e, late, rejected);
      RunSound(Step(s, e), run[1..], late + LateNow(s, e), rejected + RejectedNow(s, e));
      FinalTrans(s.node, Step(s, e).node, Run(s, run).node);
      assert late + Late(s, run) == late + LateNow(s, e) + Late(Step(s, e), run[1..]);
    }
  }

  lemma InitialInv(s: Sys)
    requires Initial(s)
    ensures Inv(s, {}, 0)
  {
    forall k | 0 <= k < |s.node.cores|
      ensures s.node.cores[k].active == [] && s.node.cores[k].inFly == []
    {
      assert s.node.cores[k] in s.node.cores;
    }
  }

  /**
   One ending.  In every run each task placed or received is in exactly one of three states: on a
   core, finished, or failed.  The failure counter counts each failed task once, plus once for
   every arrival turned away that had already failed in flight.  Reservations are held by the
   running tasks, plus for ever by those received after they had failed in flight.
   */
  lemma OneEnding(s0: Sys, run: seq<Event>)
    requires Initial(s0) && Valid(s0, run)
    ensures var s := Run(s0, run);
      && (forall t :: t in s.known <==> t in s.node.finished || t in s.node.failed || Present(s.node, t))
      && (forall t :: Present(s.node, t) ==> t !in s.node.finished && t !in s.node.failed)
      && s.node.finished.Keys !! s.node.failed && s.node.outputs == |s.node.finished|
      && s.node.failures == |s.node.failed| + Rejected(s0, run)
      && (forall t :: t in s.node.holding <==> Active(s.node, t) || t in Late(s0, run))
  {
    hide *;
    InitialInv(s0);
    RunSound(s0, run, {}, 0);
    assert {} + Late(s0, run) == Late(s0, run);
    InvOneEnding(Run(s0, run), Late(s0, run), Rejected(s0, run));
  }

  lemma InvOneEnding(s: Sys, late: set<nat>, rejected: nat)
    requires Inv(s, late, rejected)
    ensures forall t :: t in s.known <==> t in s.node.finished || t in s.node.failed || Present(s.node, t)
    ensures forall t :: Present(s.node, t) ==> t !in s.node.finished && t !in s.node.failed
    ensures s.node.finished.Keys !! s.node.failed && s.node.outputs == |s.node.finished|
    ensures s.node.failures == |s.node.failed| + rejected
    ensures forall t :: t in s.node.holding <==> Active(s.node, t) || t in late
  {
    hide Active, Waits;
  }

  /** An output handed over, or a failure, stays what it is for the rest of the run. */
  lemma EndingsAreFinal(s0: Sys, run: seq<Event>, more: seq<Event>)
    requires Initial(s0) && Valid(s0, run) && Valid(Run(s0, run), more)
    ensures var s, r := Run(s0, run), Run(Run(s0, run), more);
      && (forall t :: t in s.node.finished ==> t in r.node.finished && r.node.finished[t] == s.node.finished[t])
      && s.node.failed <= r.node.failed
  {
    hide Inv;
    InitialInv(s0);
    RunSound(s0, run, {}, 0);
    RunSound(Run(s0, run), more, {} + Late(s0, run), 0 + Rejected(s0, run));
  }
}
