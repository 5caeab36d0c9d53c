/**
 The core schedulers of a data center as objects: task allocations that point at their core, tasks
 that list their allocations, cores that list what runs and what is still in flight.  Every
 operation is proved to do to the provider's state what module Scheduling says.
 */
module CoreScheduling {
  import opened Common
  import opened Scheduling
  import opened RestartLoops

  /** The computing demand of a task for one core; core is where it was last assigned, and may be out of date. */
  class TaskAlloc {
    const task: CloudTask
    const slot: nat
    var mips: real
    var perf: real
    var since: real
    var core: CoreScheduler?

    constructor (task: CloudTask, slot: nat, mips: real)
      ensures this.task == task && this.slot == slot && core == null
      ensures View() == Alloc(task.id, slot, task.deadline, mips, 0.0, 0.0)
    {
      this.task, this.slot, this.mips := task, slot, mips;
      perf, since, core := 0.0, 0.0, null;
    }

    ghost function View(): Alloc
      reads `mips, `perf, `since
    {
      Alloc(task.id, slot, task.deadline, mips, perf, since)
    }

    method UpdateMIPS(now: real)
      modifies `mips, `since
      ensures View() == Updated(old(View()), now)
    {
      var done := perf * (now - since);
      assert done == Computed(View(), now);
      hide Computed;
      if mips > done {
        mips := mips - done;
      } else {
        mips := 0.0;
      }
      since := now;
    }

    method SetComputingRate(now: real, rate: real)
      modifies `mips, `since, `perf
      ensures View() == WithRate(old(View()), now, rate)
    {
      UpdateMIPS(now);
      perf := rate;
    }

    /** The rate the allocation needs to meet its deadline. */
    function RequiredRate(now: real): (r: real)
      requires now < task.deadline
      reads this
      ensures r == Required(View(), now)
    {
      mips / (task.deadline - now)
    }

    function ExecTime(): (r: Option<real>)
      reads this
      ensures r == Scheduling.ExecTime(View())
    {
      if perf != 0.0 then Some(mips / perf) else None
    }
  }

  /** The allocations that do not belong to task t. */
  function Others(s: seq<TaskAlloc>, t: CloudTask): (r: seq<TaskAlloc>)
    ensures forall a :: a in r ==> a in s && a.task != t
    ensures forall a :: a in s && a.task != t ==> a in r
  {
    if s == [] then [] else (if s[0].task == t then [] else [s[0]]) + Others(s[1..], t)
  }

  /** Erasing all of a task's allocations leaves the others. */
  lemma {:induction false} EraseTask(s: seq<TaskAlloc>, vs: seq<TaskAlloc>, t: CloudTask)
    requires forall a :: a in s ==> (a in vs <==> a.task == t)
    ensures EraseEach(s, vs) == Others(s, t)
  {
    if s == [] {
      EraseEachEmpty(vs);
    } else {
      assert s == [s[0]] + s[1..];
      EraseEachHead(s[0], s[1..], vs);
      EraseTask(s[1..], vs, t);
    }
  }

  lemma {:induction false} EraseEachEmpty(vs: seq<TaskAlloc>)
    ensures EraseEach<TaskAlloc>([], vs) == []
    decreases |vs|
  {
    if vs != [] {
      EraseEachEmpty(vs[..|vs| - 1]);
    }
  }

  lemma SweepOver(n: Node, k: nat, now: real)
    requires k < |n.cores| && Timely(n.cores[k].inFly, now)
    ensures Grounded(n, k, now) == n
  {
    SweepDone(n, k, now);
  }

  lemma SoonestNone(s: seq<Alloc>)
    ensures SoonestExec(s[..0]) == None
  {}

  lemma RefreshIdle(n: Node, k: nat, now: real)
    requires k < |n.cores|
    ensures |n.cores[k].active| == 0 ==> Refresh(n, k, now) == (n, None)
  {
    hide SetRate, Purge;
  }

  /** updateTskList in steps. */
  lemma RefreshSteps(n: Node, k: nat, now: real) returns (n1: Node, n2: Node, n3: Node)
    requires k < |n.cores| && |n.cores[k].active| != 0
    ensures |n1.cores| == |n2.cores| == |n3.cores| == |n.cores|
    ensures n1 == WithActive(n, k, RateAll(n.cores[k].active, now, n.cores[k].current))
    ensures n2 == Purge(n1, k, now)
    ensures n3 == SetRate(n2, k, now)
    ensures Refresh(n, k, now) == (n3, SoonestExec(n3.cores[k].active))
  {
    hide SetRate, Purge;
    n1 := WithActive(n, k, RateAll(n.cores[k].active, now, n.cores[k].current));
    n2 := Purge(n1, k, now);
    n3 := SetRate(n2, k, now);
  }

  lemma MaxRateNone(s: seq<Alloc>, now: real)
    ensures Timely(s[..0], now) && MaxRate(s[..0], now) == 0.0
  {}

  lemma CompleteOneIs(n: Node, k: nat, i: nat, now: real, v: seq<Core>)
    requires k < |n.cores| && i < |n.cores[k].active|
    requires v == n.cores[k := n.cores[k].(active := Cut(n.cores[k].active, i))]
    ensures var t := n.cores[k].active[i].task;
      CompleteOne(n, k, i, now) == if Absent(v, t)
        then n.(cores := v, finished := n.finished[t := now], outputs := n.outputs + 1, holding := n.holding - {t})
                                   else n.(cores := v)
  {
    var t := n.cores[k].active[i].task;
    var one := {t};
    assert n.finished + (map u | u in one :: now) == n.finished[t := now];
  }

  class CoreScheduler {
    const available: real
    var current: real
    var active: seq<TaskAlloc>
    var inFly: seq<TaskAlloc>

    constructor (available: real)
      ensures this.available == available && current == 0.0 && active == [] && inFly == []
    {
      this.available, current, active, inFly := available, 0.0, [], [];
    }

    /** Takes an allocation off both lists. */
    method RemoveTaskAlloc(a: TaskAlloc)
      modifies `active, `inFly
      ensures active == Erase(old(active), a) && inFly == Erase(old(inFly), a)
    {
      active := Erase(active, a);
      inFly := Erase(inFly, a);
    }

    /** Erases the allocation at i from the active list. */
    method EraseActive(i: nat, ghost p: ResourceProvider)
      requires this in p.world && i < |active|
      modifies `active
      ensures active == Cut(old(active), i)
      ensures p.ListMap() == old(p.ListMap())[this := Lists(active, inFly)]
    {
      active := Cut(active, i);
    }

    /** Takes allocation i off the core, and its task t forgets it. */
    method Unlink(p: ResourceProvider, i: nat, t: CloudTask)
      requires this in p.world && i < |active| && t == active[i].task && t in p.tasks
      modifies `active, t`allocations
      ensures active == Cut(old(active), i) && inFly == old(inFly)
      ensures p.ListMap() == old(p.ListMap())[this := Lists(active, inFly)]
      ensures p.OwnMap() == old(p.OwnMap())[t := Erase(old(t.allocations), old(active[i]))]
    {
      hide ResourceProvider.ListMap, ResourceProvider.OwnMap;
      t.RemoveTaskAlloc(active[i], p);
      EraseActive(i, p);
    }

    /** The same, as the provider sees it. */
    method TakeOff(p: ResourceProvider, i: nat, ghost k: nat, t: CloudTask, ghost x: Job, ghost r: Picture)
      requires this in p.world && i < |active| && t == active[i].task && t in p.tasks && p.Joined(p.Snapshot(), x)
      requires p.Joined(r, x)
      requires r == Picture(p.ListMap()[this := Lists(Cut(active, i), inFly)], p.CoreMap(),
                            p.OwnMap()[t := Erase(t.allocations, active[i])], p.FailedSet())
      modifies `active, t`allocations
      ensures active == Cut(old(active), i) && p.Snapshot() == r
    {
      hide *;
      hide ResourceProvider.ListMap, ResourceProvider.OwnMap, ResourceProvider.CoreMap, ResourceProvider.FailedSet;
      Unlink(p, i, t);
      p.SnapshotIs();
    }

    /** Takes the completed allocation i off the core; its task is finished if that was its last one. */
    method CompleteAt(p: ResourceProvider, i: nat, ghost k: nat, now: real, ghost x: Job, ghost n: Node)
      requires p.Linked(x) && k < |p.cores| && p.cores[k] == this && i < |active|
      requires n == p.Node() && k < |n.cores| && i < |n.cores[k].active|
      modifies `active, active[i].task`allocations, p`finished, p`outputs, p`holding
      ensures p.Linked(x) && active == Cut(old(active), i)
      ensures p.Node() == CompleteOne(n, k, i, now)
    {
      hide *;
      var t := active[i].task;
      p.NodeIs(x);
      ghost var r, v := Shortened(p, i, k, now, x);
      TakeOff(p, i, k, t, x, r);
      p.FinishedIs(r, t, x);
      p.OwnIs(t);
      HandOverIfDone(p, t, now, n);
      CompletedIs(p, x, r, n, k, i, now, v, t.id);
    }

    /** The task is finished, and its output handed over, if it has no allocation left. */
    method HandOverIfDone(p: ResourceProvider, t: CloudTask, now: real, ghost n: Node)
      requires p.finished == n.finished && p.outputs == n.outputs && p.holding == n.holding
      modifies p`finished, p`outputs, p`holding
      ensures p.finished == if t.allocations == [] then n.finished[t.id := now] else n.finished
      ensures p.outputs == if t.allocations == [] then n.outputs + 1 else n.outputs
      ensures p.holding == if t.allocations == [] then n.holding - {t.id} else n.holding
    {
      if t.allocations == [] {
        p.holding := p.holding - {t.id};
        p.finished, p.outputs := p.finished[t.id := now], p.outputs + 1;
      }
    }

    /** The picture r without allocation i, and its cores v. */
    lemma Shortened(p: ResourceProvider, i: nat, k: nat, now: real, x: Job) returns (r: Picture, v: seq<Core>)
      requires p.Linked(x) && k < |p.cores| && p.cores[k] == this && i < |active|
      ensures this in p.world && active[i].task in p.tasks && p.Joined(p.Snapshot(), x) && p.Listed(p.ListMap())
      ensures var t := active[i].task;
        && r == Picture(p.ListMap()[this := Lists(Cut(active, i), inFly)], p.CoreMap(),
                        p.OwnMap()[t := Erase(t.allocations, active[i])], p.FailedSet())
        && p.Joined(r, x) && p.Registered(r) && p.AllPlaced(r, t) && p.Listed(r.lists) && v == p.CoresOf(r.lists)
      ensures k < |p.Node().cores| && i < |p.Node().cores[k].active|
      ensures var t, n := active[i].task.id, p.Node();
        CompleteOne(n, k, i, now) == if Absent(v, t)
          then n.(cores := v, finished := n.finished[t := now], outputs := n.outputs + 1, holding := n.holding - {t})
                                     else n.(cores := v)
    {
      p.LinkedListed(x);
      p.ShedIs(k, i, x);
      var a := active[i];
      var t := a.task;
      var w, n := p.Snapshot(), p.Node();
      r := Picture(w.lists[this := Lists(Cut(active, i), inFly)], w.core, w.own[t := Erase(t.allocations, a)],
        w.failed);
      p.CoresShed(w.lists, k, i);
      v := p.CoresOf(r.lists);
      CompleteOneIs(n, k, i, now, v);
    }

    lemma CompletedIs(p: ResourceProvider, x: Job, r: Picture, n: Node, k: nat, i: nat, now: real, v: seq<Core>, t: nat)
      requires p.Snapshot() == r && p.Joined(r, x) && p.Listed(r.lists) && v == p.CoresOf(r.lists) && p.Backed()
      requires n.dvfs == p.dvfs && n.failed == p.failed && n.failures == p.failures
      requires k < |n.cores| && i < |n.cores[k].active|
      requires CompleteOne(n, k, i, now) ==
        if Absent(v, t)
          then n.(cores := v, finished := n.finished[t := now], outputs := n.outputs + 1, holding := n.holding - {t})
          else n.(cores := v)
      requires p.finished == if Absent(v, t) then n.finished[t := now] else n.finished
      requires p.outputs == if Absent(v, t) then n.outputs + 1 else n.outputs
      requires p.holding == if Absent(v, t) then n.holding - {t} else n.holding
      ensures p.Linked(x) && p.Node() == CompleteOne(n, k, i, now)
    {}

    /** The first i active allocations are neither completed nor late. */
    ghost predicate Checked(i: nat, now: real)
      reads `active, active
    {
      i <= |active| && forall j | 0 <= j < i :: active[j].mips > 1.0 && now < active[j].task.deadline
    }

    /** One turn of removeCompleted: after a failure the loop starts again from the beginning. */
    method CompletionTurn(p: ResourceProvider, i: nat, ghost k: nat, now: real, ghost x: Job, ghost n: Node)
      returns (j: nat)
      requires p.Linked(x) && k < |p.cores| && p.cores[k] == this && i < |active| && Checked(i, now)
      requires n == p.Node() && k < |n.cores|
      modifies p.world`active, p.world`inFly, p.tasks`allocations, p.tasks`failed
      modifies p`finished, p`outputs, p`holding, p`failures, p`failed
      ensures p.Linked(x) && Checked(j, now)
      ensures Purge(p.Node(), k, now) == Purge(n, k, now)
      ensures |active| < old(|active|) || (|active| == old(|active|) && j == i + 1)
    {
      hide ResourceProvider.Linked, ResourceProvider.Snapshot, ResourceProvider.ListMap, ResourceProvider.Listed,
        ResourceProvider.Gone, ResourceProvider.Node, Purge, Cut, Others, CompleteOne, FailAll, Views;
      p.LinkedListed(x);
      p.NodeAt(k);
      p.MemberIs(k, active[i], x);
      var a := active[i];
      j := i;
      if a.mips <= 1.0 {
        PurgeCompleteOne(n, k, i, now);
        CutKeeps(active, i);
        CompleteAt(p, i, k, now, x, n);
      } else if now >= a.task.deadline {
        PurgeFailOne(n, k, now, a.task.id);
        if !a.task.failed {
          ghost var s := active;
          a.task.Fail(p, x);
          OthersLess(s, a);
        }
        j := 0;
      } else if a.task.failed {
        assert false;
      } else {
        j := i + 1;
      }
    }

    /** removeCompleted. */
    method RemoveCompleted(p: ResourceProvider, ghost k: nat, now: real, ghost x: Job)
      requires p.Linked(x) && k < |p.cores| && p.cores[k] == this
      modifies p.world`active, p.world`inFly, p.tasks`allocations, p.tasks`failed
      modifies p`finished, p`outputs, p`holding, p`failures, p`failed
      ensures p.Linked(x) && p.Node() == Purge(old(p.Node()), k, now)
    {
      hide ResourceProvider.Joined, ResourceProvider.Snapshot, ResourceProvider.ListMap, ResourceProvider.Listed,
        ResourceProvider.Node, Purge, ResourceProvider.Backed, Views;
      p.LinkedListed(x);
      ghost var n := p.Node();
      var i: nat := 0;
      while i < |active|
        invariant p.Linked(x) && Checked(i, now) && Purge(p.Node(), k, now) == Purge(n, k, now)
        decreases |active|, |active| - i
      {
        p.LinkedListed(x);
        i := CompletionTurn(p, i, k, now, x, p.Node());
      }
      p.LinkedListed(x);
      p.NodeAt(k);
      PurgeDone(p.Node(), k, now);
    }

    /** Every active allocation catches up with the clock. */
    method UpdateActive(now: real)
      requires Distinct(active)
      modifies active`mips, active`since
      ensures Views(active) == UpdateAll(old(Views(active)), now)
    {
      ghost var s := active;
      for i := 0 to |active|
        invariant forall j | 0 <= j < |s| :: s[j].View() == if j < i then Updated(old(s[j].View()), now)
          else old(s[j].View())
      {
        active[i].UpdateMIPS(now);
      }
    }

    /** updateTskComputingRates: every active allocation gets an equal share. */
    method UpdateTskComputingRates(now: real, rate: real)
      requires Distinct(active)
      modifies active`mips, active`since, active`perf
      ensures Views(active) == RateAll(old(Views(active)), now, rate)
    {
      ghost var s := active;
      for i := 0 to |active|
        invariant forall j | 0 <= j < |s| ::
          s[j].View() == if j < i then WithRate(old(s[j].View()), now, rate / |s| as real) else old(s[j].View())
      {
        active[i].SetComputingRate(now, rate / |active| as real);
      }
    }

    /** The highest rate that an active allocation needs. */
    method MaxActive(now: real) returns (maxrate: real)
      requires forall i | 0 <= i < |active| :: now < active[i].task.deadline && !active[i].task.failed
      ensures Timely(Views(active), now) && maxrate == MaxRate(Views(active), now)
    {
      maxrate := 0.0;
      ghost var s := Views(active);
      assert Timely(s, now);
      hide Timely, MaxRate, Required, TaskAlloc.RequiredRate;
      var i := 0;
      MaxRateNone(s, now);
      while i < |active|
        invariant 0 <= i <= |active| && Timely(s[..i], now) && maxrate == MaxRate(s[..i], now)
      {
        var a := active[i];
        if a.task.deadline - now > 0.0 && !a.task.failed {
          MaxRateNext(s, i, now);
          var rate := a.RequiredRate(now);
          if rate > maxrate {
            maxrate := rate;
          }
          i := i + 1;
        } else {
          assert false;
        }
      }
      assert s[..|s|] == s;
    }

    /** The first c allocations in flight are in time and counted in maxrate; the loop looks at allocation i. */
    ghost predicate Counted(i: nat, c: nat, now: real, start: real, maxrate: real)
      reads `inFly, inFly
    {
      && i <= c <= |inFly| && Timely(Views(inFly)[..c], now)
      && maxrate == Max(start, MaxRate(Views(inFly)[..c], now))
    }

    /** One turn of the loop over the allocations in flight; after a failure it starts again from the beginning. */
    method InFlyTurn(p: ResourceProvider, i: nat, maxrate: real, ghost start: real, ghost c: nat,
                     ghost k: nat, now: real, ghost x: Job, ghost n: Node)
      returns (j: nat, rate: real, ghost d: nat)
      requires p.Linked(x) && k < |p.cores| && p.cores[k] == this && i < |inFly| && x.Ahead(now)
      requires Timely(Views(active), now) && Counted(i, c, now, start, maxrate)
      requires n == p.Node()
      modifies p.world`active, p.world`inFly, p.tasks`allocations, p.tasks`failed, p`holding, p`failures, p`failed
      ensures p.Linked(x) && active == old(active) && Timely(Views(active), now)
      ensures j <= |inFly| && Counted(j, d, now, start, rate)
      ensures Grounded(p.Node(), k, now) == Grounded(n, k, now)
      ensures |inFly| < old(|inFly|) || (|inFly| == old(|inFly|) && j == i + 1)
    {
      hide *;
      p.MemberIs(k, inFly[i], x);
      var a := inFly[i];
      if a.task.deadline - now > 0.0 && !a.task.failed {
        rate := maxrate;
        var r := a.RequiredRate(now);
        if r > rate {
          rate := r;
        }
        j, d := i + 1, if i == c then c + 1 else c;
        CountNext(i, c, now, start, maxrate);
        LargerIs(maxrate, r, rate);
      } else {
        FailLate(p, i, maxrate, start, c, k, now, x, n);
        j, rate, d := 0, maxrate, c;
      }
    }

    lemma LargerIs(m: real, r: real, rate: real)
      requires rate == if r > m then r else m
      ensures rate == Max(m, r)
    {}

    /** The late task at i fails, and the loop starts again with the rate it has. */
    method FailLate(p: ResourceProvider, i: nat, ghost maxrate: real, ghost start: real, ghost c: nat,
                    ghost k: nat, ghost now: real, ghost x: Job, ghost n: Node)
      requires p.Linked(x) && k < |p.cores| && p.cores[k] == this && i < |inFly| && x.Ahead(now)
      requires Timely(Views(active), now) && Counted(i, c, now, start, maxrate)
      requires n == p.Node() && (inFly[i].task.deadline <= now || inFly[i].task.failed)
      modifies p.world`active, p.world`inFly, p.tasks`allocations, p.tasks`failed, p`holding, p`failures, p`failed
      ensures p.Linked(x) && active == old(active) && Timely(Views(active), now)
      ensures Counted(0, c, now, start, maxrate)
      ensures Grounded(p.Node(), k, now) == Grounded(n, k, now) && |inFly| < old(|inFly|)
    {
      hide ResourceProvider.Linked, ResourceProvider.Snapshot, ResourceProvider.ListMap, ResourceProvider.Listed,
        ResourceProvider.Gone, ResourceProvider.Node, Others, FailAll, TaskAlloc.RequiredRate, Required;
      p.LinkedListed(x);
      p.NodeAt(k);
      p.MemberIs(k, inFly[i], x);
      var a := inFly[i];
      SweepFailOne(n, k, now, a.task.id);
      LateIsNotCounted(a, c, now);
      ghost var s, f, v := active, inFly, Views(inFly);
      assert Timely(v[..c], now) && maxrate == Max(start, MaxRate(v[..c], now));
      hide Counted, Timely;
      a.task.Fail(p, x);
      assert Views(f) == v;
      OthersSame(s, a.task);
      OthersLess(f, a);
      OthersPrefix(f, a.task, c);
      CountKept(f, c, now, start, maxrate);
    }

    lemma CountNext(i: nat, c: nat, now: real, start: real, maxrate: real)
      requires Counted(i, c, now, start, maxrate) && i < |inFly| && now < inFly[i].task.deadline
      ensures Counted(i + 1, if i == c then c + 1 else c, now, start, Max(maxrate, inFly[i].RequiredRate(now)))
    {
      var s := Views(inFly)[..c];
      if i == c {
        var u := Views(inFly)[..c + 1];
        assert u[..c] == s && u[c] == inFly[c].View() && u[..c + 1] == u;
        assert Timely(u, now);
        MaxRateNext(u, c, now);
      } else {
        assert s[i] == inFly[i].View() && s[i] in s;
      }
    }

    lemma LateIsNotCounted(a: TaskAlloc, c: nat, now: real)
      requires c <= |inFly| && Timely(Views(inFly)[..c], now) && Timely(Views(active), now) && a.task.deadline <= now
      ensures (forall b :: b in active ==> b.task != a.task) && (forall b :: b in inFly[..c] ==> b.task != a.task)
    {
      forall j | 0 <= j < |active|
        ensures active[j].task != a.task
      {
        assert Views(active)[j] in Views(active);
      }
      forall j | 0 <= j < c
        ensures inFly[j].task != a.task
      {
        assert Views(inFly)[..c][j] in Views(inFly)[..c];
      }
    }

    lemma CountKept(f: seq<TaskAlloc>, c: nat, now: real, start: real, maxrate: real)
      requires c <= |f| && c <= |inFly| && inFly[..c] == f[..c] && Timely(Views(f)[..c], now)
      requires maxrate == Max(start, MaxRate(Views(f)[..c], now))
      ensures Counted(0, c, now, start, maxrate)
    {
      assert forall j | 0 <= j < c :: inFly[..c][j] == f[..c][j];
      assert Views(inFly)[..c] == Views(f)[..c];
    }

    /** UpdateActive, as the provider sees it. */
    method CatchUp(p: ResourceProvider, ghost k: nat, now: real, ghost x: Job, ghost n: Node)
      requires p.Linked(x) && k < |p.cores| && p.cores[k] == this && n == p.Node()
      modifies active`mips, active`since
      ensures p.Linked(x) && p.Node() == WithActive(n, k, UpdateAll(n.cores[k].active, now))
    {
      hide *;
      p.LinkedJoined(x);
      p.LinkedListed(x);
      p.NodeParts(k, x);
      p.OnceHere(k, x);
      p.CoresDiffer(k, x);
      forall j | 0 <= j < |p.cores| && j != k {
        p.Elsewhere(k, j, x);
      }
      UpdateActive(now);
      p.OnlyActive(k, n, UpdateAll(n.cores[k].active, now));
    }

    /** UpdateTskComputingRates, as the provider sees it. */
    method ShareRate(p: ResourceProvider, ghost k: nat, now: real, rate: real, ghost x: Job, ghost n: Node)
      requires p.Linked(x) && k < |p.cores| && p.cores[k] == this && n == p.Node()
      modifies active`mips, active`since, active`perf
      ensures p.Linked(x) && p.Node() == WithActive(n, k, RateAll(n.cores[k].active, now, rate))
    {
      hide *;
      p.LinkedJoined(x);
      p.LinkedListed(x);
      p.NodeParts(k, x);
      p.OnceHere(k, x);
      p.CoresDiffer(k, x);
      forall j | 0 <= j < |p.cores| && j != k {
        p.Elsewhere(k, j, x);
      }
      UpdateTskComputingRates(now, rate);
      p.OnlyActive(k, n, RateAll(n.cores[k].active, now, rate));
    }

    /** The loop over the allocations in flight: what is late fails, the rest may raise the rate. */
    method MaxInFly(p: ResourceProvider, start: real, ghost k: nat, now: real, ghost x: Job, ghost n: Node)
      returns (maxrate: real)
      requires p.Linked(x) && k < |p.cores| && p.cores[k] == this && n == p.Node()
      requires Timely(Views(active), now) && start >= 0.0 && x.Ahead(now)
      modifies p.world`active, p.world`inFly, p.tasks`allocations, p.tasks`failed, p`holding, p`failures, p`failed
      ensures p.Linked(x) && p.Node() == Grounded(n, k, now)
      ensures active == old(active) && Timely(Views(inFly), now) && maxrate == Max(start, MaxRate(Views(inFly), now))
    {
      ghost var c: nat := 0;
      maxrate := start;
      var i: nat := 0;
      hide *;
      CountNone(now, start);
      while i < |inFly|
        invariant p.Linked(x) && active == old(active) && Counted(i, c, now, start, maxrate) && i <= |inFly|
        invariant Timely(Views(active), now)
        invariant Grounded(p.Node(), k, now) == Grounded(n, k, now)
        decreases |inFly|, |inFly| - i
      {
        i, maxrate, c := InFlyTurn(p, i, maxrate, start, c, k, now, x, p.Node());
      }
      CountAll(i, c, now, start, maxrate);
      SweepEnds(p, k, now, x);
    }

    lemma SweepEnds(p: ResourceProvider, k: nat, now: real, x: Job)
      requires p.Linked(x) && k < |p.cores| && p.cores[k] == this && Timely(Views(inFly), now)
      ensures Grounded(p.Node(), k, now) == p.Node()
    {
      p.LinkedListed(x);
      p.NodesAre();
      SweepOver(p.Node(), k, now);
    }

    lemma CountNone(now: real, start: real)
      requires start >= 0.0
      ensures Counted(0, 0, now, start, start)
    {}

    lemma CountAll(i: nat, c: nat, now: real, start: real, maxrate: real)
      requires Counted(i, c, now, start, maxrate) && i >= |inFly|
      ensures Timely(Views(inFly), now) && maxrate == Max(start, MaxRate(Views(inFly), now))
    {
      assert Views(inFly)[..c] == Views(inFly);
    }

    /** getMostUrgentTaskRate. */
    method GetMostUrgentTaskRate(p: ResourceProvider, ghost k: nat, now: real, ghost x: Job, ghost n: Node)
      returns (rate: real)
      requires p.Linked(x) && k < |p.cores| && p.cores[k] == this && n == p.Node() && x.Ahead(now)
      modifies active`mips, active`since
      modifies p.world`active, p.world`inFly, p.tasks`allocations, p.tasks`failed
      modifies p`finished, p`outputs, p`holding, p`failures, p`failed
      ensures p.Linked(x) && p.Node() == Swept(n, k, now) && rate == Urgency(Swept(n, k, now).cores[k], now)
    {
      hide *;
      p.MembersIn(k, x);
      CatchUp(p, k, now, x, n);
      ghost var n1 := p.Node();
      RemoveCompleted(p, k, now, x);
      ActiveLive(p, k, now, x, n1);
      var maxrate := MaxActive(now);
      maxrate := MaxInFly(p, maxrate, k, now, x, p.Node());
      if maxrate > available {
        rate := available;
      } else {
        rate := maxrate;
      }
      SweptNow(p, k, now, x, n, maxrate, rate);
    }

    /** After removeCompleted everything active is live. */
    lemma ActiveLive(p: ResourceProvider, k: nat, now: real, x: Job, n: Node)
      requires p.Linked(x) && k < |p.cores| && p.cores[k] == this && k < |n.cores| && p.Node() == Purge(n, k, now)
      ensures forall i | 0 <= i < |active| :: now < active[i].task.deadline && !active[i].task.failed
    {
      hide Purge, ResourceProvider.Linked, ResourceProvider.Node;
      SweptLive(n, k, now);
      p.LinkedListed(x);
      p.NodesAre();
      forall i | 0 <= i < |active|
        ensures now < active[i].task.deadline && !active[i].task.failed
      {
        p.MemberIs(k, active[i], x);
        assert p.Node().cores[k].active[i] == active[i].View();
      }
    }

    lemma SweptNow(p: ResourceProvider, k: nat, now: real, x: Job, n: Node, maxrate: real, rate: real)
      requires p.Linked(x) && k < |p.cores| && p.cores[k] == this && k < |n.cores|
      requires p.Node() == Grounded(Purge(WithActive(n, k, UpdateAll(n.cores[k].active, now)), k, now), k, now)
      requires Timely(Views(active), now) && Timely(Views(inFly), now)
      requires maxrate == Max(MaxRate(Views(active), now), MaxRate(Views(inFly), now))
      requires rate == if maxrate > available then available else maxrate
      ensures p.Node() == Swept(n, k, now) && rate == Urgency(Swept(n, k, now).cores[k], now)
    {
      SweptIs(n, k, now);
      hide Purge, ResourceProvider.Linked, ResourceProvider.Node, Swept;
      p.LinkedListed(x);
      p.NodesAre();
      MaxRateAppend(Views(active), Views(inFly), now);
    }

    method SetCurrent(p: ResourceProvider, rate: real, ghost k: nat, ghost x: Job, ghost n: Node)
      requires p.Linked(x) && k < |p.cores| && p.cores[k] == this && n == p.Node()
      modifies `current
      ensures p.Linked(x) && p.Node() == WithCurrent(n, k, rate) && current == rate
    {
      hide *;
      p.LinkedJoined(x);
      p.LinkedListed(x);
      p.NodeParts(k, x);
      p.CoresDiffer(k, x);
      current := rate;
      p.OnlyCurrent(k, n);
    }

    /** setComputingRate. */
    method SetComputingRate(p: ResourceProvider, ghost k: nat, now: real, ghost x: Job, ghost n: Node)
      requires p.Linked(x) && k < |p.cores| && p.cores[k] == this && n == p.Node() && x.Ahead(now)
      modifies `current, p.allocs`mips, p.allocs`since, p.allocs`perf
      modifies p.world`active, p.world`inFly, p.tasks`allocations, p.tasks`failed
      modifies p`finished, p`outputs, p`holding, p`failures, p`failed
      ensures p.Linked(x) && p.Node() == SetRate(n, k, now)
    {
      hide *;
      var pace := 0.0;
      p.DvfsIs(k, x);
      p.MembersIn(k, x);
      if p.dvfs {
        var rate := GetMostUrgentTaskRate(p, k, now, x, n);
        pace := rate * |active| as real;
      } else if |active| != 0 {
        pace := available;
      }
      p.DvfsIs(k, x);
      ghost var n1 := p.Node();
      PaceIs(n, n1, k, now, pace);
      SetCurrent(p, pace, k, x, n1);
      p.MembersIn(k, x);
      ShareRate(p, k, now, current, x, p.Node());
      RatedIs(n, n1, k, now, pace);
    }

    /** When the first active allocation will complete at the present rates. */
    method NextCompletion() returns (next: Option<real>)
      ensures next == SoonestExec(Views(active))
    {
      ghost var s := Views(active);
      hide SoonestExec, Scheduling.ExecTime, TaskAlloc.ExecTime;
      next := None;
      SoonestNone(s);
      for i := 0 to |active|
        invariant next == SoonestExec(s[..i])
      {
        SoonestNext(s, i);
        var e := active[i].ExecTime();
        if e.Some? && (next.None? || next.value > e.value) {
          next := e;
        }
      }
      assert s[..|s|] == s;
    }

    /** The first part of updateTskList, up to the time of the next completion. */
    method RefreshList(p: ResourceProvider, ghost k: nat, now: real, ghost n: Node) returns (next: Option<real>)
      requires p.Linked(Nobody) && k < |p.cores| && p.cores[k] == this && n == p.Node()
      modifies `current, p.allocs`mips, p.allocs`since, p.allocs`perf
      modifies p.world`active, p.world`inFly, p.tasks`allocations, p.tasks`failed
      modifies p`finished, p`outputs, p`holding, p`failures, p`failed
      ensures p.Linked(Nobody) && p.Node() == Refresh(n, k, now).0 && next == Refresh(n, k, now).1
    {
      hide *;
      p.DvfsIs(k, Nobody);
      RefreshIdle(n, k, now);
      next := None;
      if |active| != 0 {
        next := RefreshBusy(p, k, now, n);
      }
    }

    /** The same when something runs. */
    method RefreshBusy(p: ResourceProvider, ghost k: nat, now: real, ghost n: Node) returns (next: Option<real>)
      requires p.Linked(Nobody) && k < |p.cores| && p.cores[k] == this && n == p.Node() && |active| != 0
      modifies `current, p.allocs`mips, p.allocs`since, p.allocs`perf
      modifies p.world`active, p.world`inFly, p.tasks`allocations, p.tasks`failed
      modifies p`finished, p`outputs, p`holding, p`failures, p`failed
      ensures p.Linked(Nobody) && p.Node() == Refresh(n, k, now).0 && next == Refresh(n, k, now).1
    {
      hide *;
      p.DvfsIs(k, Nobody);
      ghost var n1, n2, n3 := RefreshSteps(n, k, now);
      Settle(p, k, now, n, n2);
      next := Rerate(p, k, now, n2, n3);
    }

    /** Work is accounted for and what is completed leaves. */
    method Settle(p: ResourceProvider, ghost k: nat, now: real, ghost n: Node, ghost n2: Node)
      requires p.Linked(Nobody) && k < |p.cores| && p.cores[k] == this && n == p.Node()
      requires n2 == Purge(WithActive(n, k, RateAll(n.cores[k].active, now, n.cores[k].current)), k, now)
      modifies p.allocs`mips, p.allocs`since, p.allocs`perf
      modifies p.world`active, p.world`inFly, p.tasks`allocations, p.tasks`failed
      modifies p`finished, p`outputs, p`holding, p`failures, p`failed
      ensures p.Linked(Nobody) && p.Node() == n2
    {
      hide *;
      p.ActiveIs(k, Nobody);
      p.MembersIn(k, Nobody);
      ShareRate(p, k, now, current, Nobody, n);
      RemoveCompleted(p, k, now, Nobody);
    }

    /** The rates are set anew. */
    method Rerate(p: ResourceProvider, ghost k: nat, now: real, ghost n2: Node, ghost n3: Node)
      returns (next: Option<real>)
      requires p.Linked(Nobody) && k < |p.cores| && p.cores[k] == this && n2 == p.Node() && n3 == SetRate(n2, k, now)
      modifies `current, p.allocs`mips, p.allocs`since, p.allocs`perf
      modifies p.world`active, p.world`inFly, p.tasks`allocations, p.tasks`failed
      modifies p`finished, p`outputs, p`holding, p`failures, p`failed
      ensures p.Linked(Nobody) && p.Node() == n3 && next == SoonestExec(n3.cores[k].active)
    {
      assert Nobody.Ahead(now);
      hide *;
      SetComputingRate(p, k, now, Nobody, n2);
      next := NextHere(p, k, n3);
    }

    method NextHere(p: ResourceProvider, ghost k: nat, ghost n: Node) returns (next: Option<real>)
      requires p.Linked(Nobody) && k < |p.cores| && p.cores[k] == this && n == p.Node()
      ensures next == SoonestExec(n.cores[k].active)
    {
      hide *;
      p.ActiveIs(k, Nobody);
      next := NextCompletion();
    }

    /** updateTskList. */
    method UpdateTskList(p: ResourceProvider, ghost k: nat, now: real, ghost n: Node, ghost tm: Timer)
      requires p.Linked(Nobody) && k < |p.cores| && p.cores[k] == this && n == p.Node() && tm == p.Timer()
      modifies `current, p.allocs`mips, p.allocs`since, p.allocs`perf, p`eventTime, p`pending
      modifies p.world`active, p.world`inFly, p.tasks`allocations, p.tasks`failed
      modifies p`finished, p`outputs, p`holding, p`failures, p`failed
      ensures p.Linked(Nobody) && p.Node() == Refresh(n, k, now).0
      ensures p.Timer() == Schedule(tm, now, Refresh(n, k, now).1)
    {
      hide *;
      var next := RefreshList(p, k, now, n);
      p.ScheduleNextExent(now, next);
    }

    /** executeTask. */
    method ExecuteTask(a: TaskAlloc)
      modifies `active, a`core
      ensures active == old(active) + [a] && a.core == this
    {
      active := active + [a];
      a.core := this;
    }

    /** What the loop of startTaskExecution has done with the first q of the allocations f. */
    ghost predicate Started(f: seq<TaskAlloc>, q: nat, t: CloudTask, now: real, vf: seq<Alloc>)
      requires q <= |f| == |vf|
      reads f
    {
      forall j | 0 <= j < |f| ::
        && f[j].View() == (if j < q && f[j].task == t then vf[j].(since := now) else vf[j])
        && f[j].core == this
    }

    /** Allocation i in flight begins to run now. */
    method StartOne(i: nat, a: TaskAlloc, ghost f: seq<TaskAlloc>, ghost q: nat, ghost t: CloudTask, now: real,
                    ghost vf: seq<Alloc>)
      requires i < |inFly| && a == inFly[i] && q < |f| == |vf| && f[q] == a && f[q].task == t && Distinct(f)
        && Started(f, q, t, now, vf)
      modifies `active, `inFly, a`core, a`since
      ensures active == old(active) + [a] && inFly == Cut(old(inFly), i)
      ensures Started(f, q + 1, t, now, vf)
    {
      ExecuteTask(a);
      a.since := now;
      inFly := Cut(inFly, i);
    }

    lemma StartedSkip(f: seq<TaskAlloc>, q: nat, t: CloudTask, now: real, vf: seq<Alloc>)
      requires q < |f| == |vf| && f[q].task != t && Started(f, q, t, now, vf)
      ensures Started(f, q + 1, t, now, vf)
    {}

    /** One turn of the loop of startTaskExecution. */
    method MoveTurn(t: CloudTask, i: nat, ghost f: seq<TaskAlloc>, ghost s: seq<TaskAlloc>, ghost q: nat, now: real,
                    ghost vf: seq<Alloc>)
      returns (j: nat)
      requires i < |inFly| && q <= |f| == |vf| && Distinct(f) && SameIds(f, t)
      requires Sifted(f, s, q, t, i, active, inFly) && Started(f, q, t, now, vf)
      modifies `active, `inFly, f`since, f`core
      ensures q < |f| && Sifted(f, s, q + 1, t, j, active, inFly) && Started(f, q + 1, t, now, vf)
    {
      SiftedHere(f, s, q, t, i, active, inFly);
      hide Sifted, Cut, Started;
      var a := inFly[i];
      if a.task.id == t.id {
        SiftedTake(f, s, q, t, i, active, inFly);
        StartOne(i, a, f, q, t, now, vf);
        j := i;
      } else {
        SiftedSkip(f, s, q, t, i, active, inFly);
        StartedSkip(f, q, t, now, vf);
        j := i + 1;
      }
    }

    /** The loop of startTaskExecution: the task's allocations in flight become active. */
    method MoveTask(t: CloudTask, now: real)
      requires Distinct(inFly) && SameIds(inFly, t)
      requires forall a :: a in inFly ==> a.core == this
      modifies `active, `inFly, inFly`since, inFly`core
      ensures active == old(active) + Mine(old(inFly), t) && inFly == Others(old(inFly), t)
      ensures Started(old(inFly), |old(inFly)|, t, now, old(Views(inFly)))
    {
      hide *;
      ghost var s, f, q: nat, vf := active, inFly, 0, Views(inFly);
      var i: nat := 0;
      SiftedNone(f, s, t);
      NoneStarted(f, t, now, vf);
      while i < |inFly|
        invariant q <= |f| && Sifted(f, s, q, t, i, active, inFly) && Started(f, q, t, now, vf)
        decreases |f| - q
      {
        i := MoveTurn(t, i, f, s, q, now, vf);
        q := q + 1;
      }
      SiftedAll(f, s, q, t, i, active, inFly);
    }

    lemma NoneStarted(f: seq<TaskAlloc>, t: CloudTask, now: real, vf: seq<Alloc>)
      requires vf == Views(f) && forall a :: a in f ==> a.core == this
      ensures |vf| == |f| && Started(f, 0, t, now, vf)
    {}

    /** MoveTask changes these lists and no core pointer. */
    method MoveTaskIn(p: ResourceProvider, t: CloudTask, now: real)
      requires this in p.world && Distinct(inFly) && SameIds(inFly, t)
      requires forall a :: a in inFly ==> a.core == this
      modifies `active, `inFly, inFly`since, inFly`core
      ensures active == old(active) + Mine(old(inFly), t) && inFly == Others(old(inFly), t)
      ensures Started(old(inFly), |old(inFly)|, t, now, old(Views(inFly)))
      ensures p.ListMap() == old(p.ListMap())[this := Lists(active, inFly)] && p.CoreMap() == old(p.CoreMap())
    {
      ghost var f, core := inFly, p.CoreMap();
      MoveTask(t, now);
      CoresKept(p, f, core, t, now, old(Views(inFly)));
    }

    lemma CoresKept(p: ResourceProvider, f: seq<TaskAlloc>, core: map<TaskAlloc, CoreScheduler?>, t: CloudTask,
                    now: real, vf: seq<Alloc>)
      requires |f| == |vf| && Started(f, |f|, t, now, vf) && core.Keys == p.allocs
      requires forall a :: a in p.allocs ==> if a in f then core[a] == this else a.core == core[a]
      ensures p.CoreMap() == core
    {
      forall a | a in p.allocs
        ensures a.core == core[a]
      {
        if a in f {
          var j :| 0 <= j < |f| && f[j] == a;
        }
      }
    }

    /** The same, as the provider sees it. */
    method Launch(p: ResourceProvider, t: CloudTask, ghost k: nat, now: real, ghost n: Node)
      requires p.Joined(p.Snapshot(), Nobody) && k < |p.cores| && p.cores[k] == this && n == p.Node() && t in p.tasks
      modifies `active, `inFly, inFly`since, inFly`core
      ensures p.Joined(p.Snapshot(), Nobody) && p.Node() == StartOn(n, k, now, t.id)
    {
      hide *;
      p.NodeParts(k, Nobody);
      p.OnceHere(k, Nobody);
      p.InFlyHere(k, t, Nobody);
      p.CoresDiffer(k, Nobody);
      forall j | 0 <= j < |p.cores| && j != k {
        p.ElsewhereFly(k, j, Nobody);
      }
      ghost var l, core, s, f, vs, vf := p.ListMap(), p.CoreMap(), active, inFly, Views(active), Views(inFly);
      p.JoinedStart(k, t);
      MoveTaskIn(p, t, now);
      AgreeIs(f, t, now, vf);
      ViewsStarted(f, t, now, vf);
      assert Views(s) == vs;
      ViewsJoin(s, Mine(f, t));
      LaunchIs(p);
      p.OnlyLists(k, n, vs + Starting(vf, t.id, now), Drop(vf, {t.id}));
      StartOnIs(n, k, now, t.id);
    }

    lemma LaunchIs(p: ResourceProvider)
      requires p.Joined(Picture(p.ListMap(), p.CoreMap(), p.OwnMap(), p.FailedSet()), Nobody)
      ensures p.Joined(p.Snapshot(), Nobody) && p.Listed(p.ListMap())
    {}

    /** The two loops over the in-fly list, in agreement. */
    ghost predicate Agree(f: seq<TaskAlloc>, t: CloudTask, now: real, vf: seq<Alloc>)
      reads f
    {
      |f| == |vf| && Started(f, |f|, t, now, vf) && forall i | 0 <= i < |f| :: f[i].task == t <==> vf[i].task == t.id
    }

    lemma {:induction false} ViewsStarted(f: seq<TaskAlloc>, t: CloudTask, now: real, vf: seq<Alloc>)
      requires Agree(f, t, now, vf)
      ensures Views(Mine(f, t)) == Starting(vf, t.id, now) && Views(Others(f, t)) == Drop(vf, {t.id})
      decreases |f|
    {
      AgreeOn(f, t, now, vf);
      hide *;
      if f != [] {
        ViewsStarted(f[1..], t, now, vf[1..]);
        HeadTail(f);
        HeadTail(vf);
        ViewsStartedCons(f[0], f[1..], t, now, vf[0], vf[1..]);
      } else {
        assert f == [] && vf == [];
        NothingStarted(t, now);
      }
    }

    lemma AgreeIs(f: seq<TaskAlloc>, t: CloudTask, now: real, vf: seq<Alloc>)
      requires |f| == |vf| && Started(f, |f|, t, now, vf) && forall i | 0 <= i < |f| ::
          f[i].task == t <==> vf[i].task == t.id
      ensures Agree(f, t, now, vf)
    {}

    lemma AgreeOn(f: seq<TaskAlloc>, t: CloudTask, now: real, vf: seq<Alloc>)
      requires Agree(f, t, now, vf)
      ensures |f| == |vf|
      ensures f != [] ==>
        && Agree(f[1..], t, now, vf[1..]) && (f[0].task == t <==> vf[0].task == t.id)
        && f[0].View() == if f[0].task == t then vf[0].(since := now) else vf[0]
    {}

    lemma NothingStarted(t: CloudTask, now: real)
      ensures Views(Mine([], t)) == Starting([], t.id, now) && Views(Others([], t)) == Drop([], {t.id})
    {}

    lemma ViewsStartedCons(a: TaskAlloc, g: seq<TaskAlloc>, t: CloudTask, now: real, v: Alloc, vg: seq<Alloc>)
      requires Views(Mine(g, t)) == Starting(vg, t.id, now) && Views(Others(g, t)) == Drop(vg, {t.id})
      requires a.View() == (if a.task == t then v.(since := now) else v) && (a.task == t <==> v.task == t.id)
      ensures Views(Mine([a] + g, t)) == Starting([v] + vg, t.id, now)
        && Views(Others([a] + g, t)) == Drop([v] + vg, {t.id})
    {
      hide *;
      MineCons(a, g, t);
      OthersCons(a, g, t);
      ViewsCons(a, Mine(g, t));
      ViewsCons(a, Others(g, t));
      DropHead(v, vg, {t.id});
      StartingHead(v, vg, t.id, now);
      assert [] + Mine(g, t) == Mine(g, t) && [] + Others(g, t) == Others(g, t);
      assert [] + Drop(vg, {t.id}) == Drop(vg, {t.id}) && [] + Starting(vg, t.id, now) == Starting(vg, t.id, now);
    }

    /** startTaskExecution. */
    method StartTaskExecution(p: ResourceProvider, t: CloudTask, ghost k: nat, now: real, ghost n: Node,
                              ghost tm: Timer)
      requires p.Joined(p.Snapshot(), Nobody) && p.BackedBut(t) && t in p.tasks
      requires k < |p.cores| && p.cores[k] == this && n == p.Node() && tm == p.Timer()
      modifies `current, p.allocs`mips, p.allocs`since, p.allocs`perf, p.allocs`core, p`eventTime, p`pending, t`started
      modifies p.world`active, p.world`inFly, p.tasks`allocations, p.tasks`failed
      modifies p`finished, p`outputs, p`holding, p`failures, p`failed
      ensures p.Linked(Nobody) && p.Node() == Turn(n, k, now, Some(t.id)).0
      ensures p.Timer() == Schedule(tm, now, Turn(n, k, now, Some(t.id)).1)
    {
      hide *;
      p.InFlyIn(k, Nobody);
      Launch(p, t, k, now, n);
      t.MarkStarted(p);
      p.StartedBacked();
      TurnIs(n, k, now, Some(t.id));
      UpdateTskList(p, k, now, p.Node(), tm);
    }

    /** assignTask. */
    method AssignTask(a: TaskAlloc, ghost p: ResourceProvider)
      requires this in p.world && a in p.allocs
      modifies `inFly, a`core
      ensures inFly == old(inFly) + [a]
      ensures p.ListMap() == old(p.ListMap())[this := Lists(active, inFly)]
        && p.CoreMap() == old(p.CoreMap())[a := this]
    {
      inFly := inFly + [a];
      a.core := this;
    }

    /** The same, as the provider sees it: the next allocation of the task being placed has a core. */
    method AssignNext(p: ResourceProvider, a: TaskAlloc, ghost k: nat, ghost x: Job, ghost n: Node)
      requires p.Linked(x) && k < |p.cores| && p.cores[k] == this && n == p.Node()
      requires x.Placing? && x.placed < |x.own| && a == x.own[x.placed]
      modifies `inFly, a`core
      ensures p.Linked(x.Next()) && p.Node() == Assign(n, k, a.View())
    {
      hide *;
      p.LinkedJoined(x);
      p.NodeParts(k, x);
      p.CoresDiffer(k, x);
      p.Loose(k, a, x);
      p.JoinedAssign(k, a, x);
      ghost var f, vf := inFly, Views(inFly);
      AssignTask(a, p);
      ViewsSnoc(f, a);
      p.OnlyLists(k, n, n.cores[k].active, vf + [a.View()]);
      p.LinkedAgain(x.Next());
      AssignIs(n, k, a.View());
    }
  }

  lemma ViewsSnoc(s: seq<TaskAlloc>, a: TaskAlloc)
    ensures Views(s + [a]) == Views(s) + [a.View()]
  {}

  lemma AssignIs(n: Node, k: nat, v: Alloc)
    requires k < |n.cores|
    ensures Assign(n, k, v)
      == n.(cores := n.cores[k := n.cores[k].(active := n.cores[k].active, inFly := n.cores[k].inFly + [v])])
  {}

  lemma MineCons(a: TaskAlloc, s: seq<TaskAlloc>, t: CloudTask)
    ensures Mine([a] + s, t) == (if a.task == t then [a] else []) + Mine(s, t)
  {
    assert ([a] + s)[1..] == s;
  }

  lemma StartOnIs(n: Node, k: nat, now: real, t: nat)
    requires k < |n.cores|
    ensures StartOn(n, k, now, t) ==
      n.(cores := n.cores[k := n.cores[k].(active := n.cores[k].active + Starting(n.cores[k].inFly, t, now),
                                           inFly := Drop(n.cores[k].inFly, {t}))])
  {}

  lemma ViewsJoin(s: seq<TaskAlloc>, r: seq<TaskAlloc>)
    ensures Views(s + r) == Views(s) + Views(r)
  {}



  /** On list s, ids tell the task t apart. */
  predicate SameIds(s: seq<TaskAlloc>, t: CloudTask) {
    forall a :: a in s && a.task.id == t.id ==> a.task == t
  }

  /** The allocations that belong to task t. */
  function Mine(s: seq<TaskAlloc>, t: CloudTask): (r: seq<TaskAlloc>)
    ensures forall a :: a in r ==> a in s && a.task == t
    ensures forall a :: a in s && a.task == t ==> a in r
  {
    if s == [] then [] else (if s[0].task == t then [s[0]] else []) + Mine(s[1..], t)
  }

  /** The first q allocations of f have been sorted out: those of task t are active, the others still in flight. */
  ghost predicate Sifted(f: seq<TaskAlloc>, s: seq<TaskAlloc>, q: nat, t: CloudTask, i: nat,
                         act: seq<TaskAlloc>, fly: seq<TaskAlloc>)
  {
    && q <= |f| && i == |Others(f[..q], t)|
    && fly == Others(f[..q], t) + f[q..] && act == s + Mine(f[..q], t)
  }

  lemma SiftedNone(f: seq<TaskAlloc>, s: seq<TaskAlloc>, t: CloudTask)
    ensures Sifted(f, s, 0, t, 0, s, f)
  {
    assert f[..0] == [] && f[0..] == f && s + [] == s && [] + f == f;
  }

  lemma SiftedHere(f: seq<TaskAlloc>, s: seq<TaskAlloc>, q: nat, t: CloudTask, i: nat, act: seq<TaskAlloc>,
                   fly: seq<TaskAlloc>)
    requires Sifted(f, s, q, t, i, act, fly) && i < |fly|
    ensures q < |f| && fly[i] == f[q]
  {}

  lemma SiftedTake(f: seq<TaskAlloc>, s: seq<TaskAlloc>, q: nat, t: CloudTask, i: nat, act: seq<TaskAlloc>,
                   fly: seq<TaskAlloc>)
    requires Sifted(f, s, q, t, i, act, fly) && i < |fly| && fly[i].task == t
    ensures Sifted(f, s, q + 1, t, i, act + [fly[i]], Cut(fly, i))
  {
    FilterNext(f, q, t);
    hide Mine, Others;
    assert Cut(fly, i) == Others(f[..q], t) + f[q + 1..];
    assert s + Mine(f[..q], t) + [f[q]] == s + (Mine(f[..q], t) + [f[q]]);
    assert Others(f[..q], t) + [] == Others(f[..q], t);
  }

  lemma SiftedSkip(f: seq<TaskAlloc>, s: seq<TaskAlloc>, q: nat, t: CloudTask, i: nat, act: seq<TaskAlloc>,
                   fly: seq<TaskAlloc>)
    requires Sifted(f, s, q, t, i, act, fly) && i < |fly| && fly[i].task != t
    ensures Sifted(f, s, q + 1, t, i + 1, act, fly)
  {
    FilterNext(f, q, t);
    hide Mine, Others;
    assert f[q..] == [f[q]] + f[q + 1..];
    Regroup(Others(f[..q], t), [f[q]], f[q + 1..]);
    assert Mine(f[..q], t) + [] == Mine(f[..q], t);
  }

  lemma Regroup<T>(r: seq<T>, s: seq<T>, t: seq<T>)
    ensures r + (s + t) == r + s + t
  {}

  lemma SiftedAll(f: seq<TaskAlloc>, s: seq<TaskAlloc>, q: nat, t: CloudTask, i: nat, act: seq<TaskAlloc>,
                  fly: seq<TaskAlloc>)
    requires Sifted(f, s, q, t, i, act, fly) && i >= |fly|
    ensures q == |f| && act == s + Mine(f, t) && fly == Others(f, t)
  {
    assert f[..|f|] == f;
    assert Others(f, t) + [] == Others(f, t);
  }

  lemma DistinctJoin(s: seq<TaskAlloc>, r: seq<TaskAlloc>)
    requires Distinct(s) && Distinct(r) && forall a :: a in s ==> a !in r
    ensures Distinct(s + r)
  {
    var u := s + r;
    forall i, j | 0 <= i < j < |u|
      ensures u[i] != u[j]
    {
      if i < |s| <= j {
        assert s[i] in s && r[j - |s|] in r;
      }
    }
  }

  lemma DistinctSplit(s: seq<TaskAlloc>, r: seq<TaskAlloc>)
    requires Distinct(s + r)
    ensures Distinct(s) && Distinct(r) && forall a :: a in s ==> a !in r
  {
    assert forall i | 0 <= i < |s| :: (s + r)[i] == s[i];
    assert forall i | 0 <= i < |r| :: (s + r)[|s| + i] == r[i];
  }

  lemma {:induction false} MineDistinct(s: seq<TaskAlloc>, t: CloudTask)
    requires Distinct(s)
    ensures Distinct(Mine(s, t))
  {
    if s != [] {
      MineDistinct(s[1..], t);
      assert forall a :: a in s[1..] ==> a != s[0];
    }
  }

  lemma DistinctSnoc(s: seq<TaskAlloc>, f: seq<TaskAlloc>, a: TaskAlloc)
    requires Distinct(s + f) && a !in s && a !in f
    ensures Distinct(s + (f + [a]))
  {
    assert s + (f + [a]) == (s + f) + [a];
    DistinctJoin(s + f, [a]);
  }

  lemma SplitDistinct(s: seq<TaskAlloc>, f: seq<TaskAlloc>, t: CloudTask)
    requires Distinct(s + f)
    ensures Distinct(s + Mine(f, t) + Others(f, t))
  {
    DistinctSplit(s, f);
    MineDistinct(f, t);
    OthersKeepDistinct(f, t);
    hide Distinct, Mine, Others;
    DistinctJoin(s, Mine(f, t));
    DistinctJoin(s + Mine(f, t), Others(f, t));
  }

  lemma {:induction false} MineAppend(s: seq<TaskAlloc>, r: seq<TaskAlloc>, t: CloudTask)
    ensures Mine(s + r, t) == Mine(s, t) + Mine(r, t)
  {
    if s == [] {
      assert s + r == r;
    } else {
      assert (s + r)[1..] == s[1..] + r;
      MineAppend(s[1..], r, t);
    }
  }

  lemma FilterOne(a: TaskAlloc, t: CloudTask)
    ensures Others([a], t) == (if a.task == t then [] else [a]) && Mine([a], t) == if a.task == t then [a] else []
  {
    assert [a][1..] == [];
  }

  lemma FilterNext(f: seq<TaskAlloc>, q: nat, t: CloudTask)
    requires q < |f|
    ensures Others(f[..q + 1], t) == Others(f[..q], t) + (if f[q].task == t then [] else [f[q]])
    ensures Mine(f[..q + 1], t) == Mine(f[..q], t) + (if f[q].task == t then [f[q]] else [])
  {
    hide Others, Mine;
    assert f[..q + 1] == f[..q] + [f[q]];
    FilterOne(f[q], t);
    OthersAppend(f[..q], [f[q]], t);
    MineAppend(f[..q], [f[q]], t);
  }

  ghost function WithCurrent(n: Node, k: nat, rate: real): (r: Node)
    requires k < |n.cores|
    ensures |r.cores| == |n.cores|
  {
    n.(cores := n.cores[k := n.cores[k].(current := rate)])
  }

  lemma PaceIs(n: Node, n1: Node, k: nat, now: real, pace: real)
    requires k < |n.cores| && k < |n1.cores| && n1 == if n.dvfs then Swept(n, k, now) else n
    requires pace == if n.dvfs then Urgency(Swept(n, k, now).cores[k], now) * |n1.cores[k].active| as real
                     else if |n1.cores[k].active| != 0 then n1.cores[k].available else 0.0
    ensures n.dvfs ==> forall a :: a in n1.cores[k].active + n1.cores[k].inFly ==> now < a.deadline
    ensures pace == Pace(n1.cores[k], now, n.dvfs)
  {
    hide Swept, Urgency;
  }

  lemma RatedIs(n: Node, n1: Node, k: nat, now: real, pace: real)
    requires k < |n.cores| && k < |n1.cores| && n1 == if n.dvfs then Swept(n, k, now) else n
    requires n.dvfs ==> forall a :: a in n1.cores[k].active + n1.cores[k].inFly ==> now < a.deadline
    requires pace == Pace(n1.cores[k], now, n.dvfs)
    ensures WithActive(WithCurrent(n1, k, pace), k, RateAll(WithCurrent(n1, k, pace).cores[k].active, now, pace))
      == SetRate(n, k, now)
  {
    SetRateIs(n, k, now);
  }

  class CloudTask {
    const id: nat
    const deadline: real
    var scheduled: bool
    var started: bool
    var failed: bool
    var allocations: seq<TaskAlloc>

    /** One allocation for each computing capacity of the task. */
    constructor (id: nat, deadline: real, loads: seq<real>)
      ensures this.id == id && this.deadline == deadline && !scheduled && !started && !failed
      ensures |allocations| == |loads| && Distinct(allocations)
      ensures forall j | 0 <= j < |loads| ::
        && fresh(allocations[j]) && allocations[j].task == this && allocations[j].core == null
        && allocations[j].View() == Fresh(Task(id, deadline, loads), j)
      ensures forall j | 0 <= j < |loads| ::
        && allocations[j].slot == j && allocations[j].mips == loads[j]
        && allocations[j].perf == 0.0 && allocations[j].since == 0.0
    {
      this.id, this.deadline := id, deadline;
      scheduled, started, failed := false, false, false;
      allocations := [];
      new;
      for i := 0 to |loads|
        invariant |allocations| == i && Distinct(allocations)
        invariant this.id == id && this.deadline == deadline && !scheduled && !started && !failed
        invariant forall j | 0 <= j < i ::
          && fresh(allocations[j]) && allocations[j].task == this && allocations[j].core == null
          && allocations[j].View() == Fresh(Task(id, deadline, loads), j)
      {
        var a := new TaskAlloc(this, i, loads[i]);
        allocations := allocations + [a];
      }
    }

    /** The task's own allocations, each pointing nowhere or at a core of the world. */
    ghost predicate Owns(world: set<CoreScheduler>)
      reads `allocations, allocations
    {
      forall a :: a in allocations ==> a.task == this && (a.core == null || a.core in world)
    }

    /** Whatever of this task is on list s of core c is its own and points at that core. */
    ghost predicate TrackedIn(c: CoreScheduler, s: seq<TaskAlloc>, allocs: set<TaskAlloc>)
      reads `allocations, allocs`core
    {
      forall a :: a in s ==> a in allocs && (a.task == this ==> a in allocations && a.core == c)
    }

    ghost predicate Tracked(world: set<CoreScheduler>, allocs: set<TaskAlloc>)
      reads `allocations, allocs`core, world`active, world`inFly
    {
      forall c :: c in world ==> TrackedIn(c, c.active, allocs) && TrackedIn(c, c.inFly, allocs)
    }

    /** Forgets one allocation. */
    method RemoveTaskAlloc(a: TaskAlloc, ghost p: ResourceProvider)
      requires this in p.tasks
      modifies `allocations
      ensures allocations == Erase(old(allocations), a)
      ensures p.OwnMap() == old(p.OwnMap())[this := allocations]
    {
      allocations := Erase(allocations, a);
    }

    /** Takes allocation i off the core it points at. */
    method ReleaseOne(i: nat, ghost world: set<CoreScheduler>, ghost allocs: set<TaskAlloc>)
      requires Owns(world) && Tracked(world, allocs) && i < |allocations|
      modifies world`active, world`inFly
      ensures forall c :: c in world ==> c.active == Erase(old(c.active), allocations[i])
      ensures forall c :: c in world ==> c.inFly == Erase(old(c.inFly), allocations[i])
      ensures Tracked(world, allocs)
    {
      var a := allocations[i];
      if a.core != null {
        a.core.RemoveTaskAlloc(a);
      }
      forall c | c in world && c != a.core
        ensures Erase(c.active, a) == c.active && Erase(c.inFly, a) == c.inFly
      {
        assert old(TrackedIn(c, c.active, allocs) && TrackedIn(c, c.inFly, allocs));
        assert a !in c.active && a !in c.inFly;
        EraseNone(c.active, a);
        EraseNone(c.inFly, a);
      }
      hide Erase, Owns;
      forall c | c in world
        ensures TrackedIn(c, c.active, allocs) && TrackedIn(c, c.inFly, allocs)
      {
        assert old(TrackedIn(c, c.active, allocs) && TrackedIn(c, c.inFly, allocs));
      }
      hide TrackedIn;
    }

    /** The task leaves every core of the data center, whatever out-of-date core pointers it has. */
    method ReleaseAllTaskAllocs(ghost world: set<CoreScheduler>, ghost allocs: set<TaskAlloc>)
      requires Owns(world) && Tracked(world, allocs)
      modifies world`active, world`inFly
      ensures forall c :: c in world ==> c.active == Others(old(c.active), this)
      ensures forall c :: c in world ==> c.inFly == Others(old(c.inFly), this)
    {
      hide TrackedIn, Erase, EraseEach, Others, Owns;
      NoneErased(world);
      for i := 0 to |allocations|
        invariant Tracked(world, allocs)
        invariant forall c :: c in world ==> c.active == EraseEach(old(c.active), allocations[..i])
        invariant forall c :: c in world ==> c.inFly == EraseEach(old(c.inFly), allocations[..i])
      {
        ReleaseOne(i, world, allocs);
        forall c | c in world
          ensures c.active == EraseEach(old(c.active), allocations[..i + 1])
          ensures c.inFly == EraseEach(old(c.inFly), allocations[..i + 1])
        {
          EraseEachNext(old(c.active), allocations, i);
          EraseEachNext(old(c.inFly), allocations, i);
        }
      }
      assert allocations[..|allocations|] == allocations;
      OwnsEach(world);
      forall c | c in world
        ensures c.active == Others(old(c.active), this) && c.inFly == Others(old(c.inFly), this)
      {
        assert old(TrackedIn(c, c.active, allocs) && TrackedIn(c, c.inFly, allocs));
        EraseTracked(c, old(c.active), allocs);
        EraseTracked(c, old(c.inFly), allocs);
      }
    }

    lemma NoneErased(world: set<CoreScheduler>)
      ensures forall c :: c in world ==> EraseEach(c.active, allocations[..0]) == c.active
      ensures forall c :: c in world ==> EraseEach(c.inFly, allocations[..0]) == c.inFly
    {}

    lemma OwnsEach(world: set<CoreScheduler>)
      requires Owns(world)
      ensures forall a :: a in allocations ==> a.task == this
    {}

    lemma EraseTracked(c: CoreScheduler, s: seq<TaskAlloc>, allocs: set<TaskAlloc>)
      requires TrackedIn(c, s, allocs) && forall a :: a in allocations ==> a.task == this
      ensures EraseEach(s, allocations) == Others(s, this)
    {
      EraseTask(s, allocations, this);
    }

    /** ReleaseAllTaskAllocs, as the provider sees it. */
    method LeaveCores(p: ResourceProvider)
      requires p.RegisteredIn(p.ListMap(), p.CoreMap(), p.OwnMap()) && this in p.tasks && Tracked(p.world, p.allocs)
      modifies p.world`active, p.world`inFly
      ensures p.ListMap() == p.Left(old(p.ListMap()), this) && p.Listed(p.ListMap())
      ensures forall c :: c in p.world ==>
          c.active == Others(old(c.active), this) && c.inFly == Others(old(c.inFly), this)
      ensures p.CoresOf(p.ListMap()) == DropFrom(old(p.CoresOf(p.ListMap())), {id})
    {
      hide Owns, Tracked, Others, EraseEach;
      ghost var l, v := p.ListMap(), p.CoresOf(p.ListMap());
      OwnsIs(p);
      ReleaseAllTaskAllocs(p.world, p.allocs);
      assert p.ListMap() == p.Left(l, this);
      assert p.CoresOf(l) == v;
      p.CoresLeft(l, this);
    }

    lemma OwnsIs(p: ResourceProvider)
      requires p.RegisteredIn(p.ListMap(), p.CoreMap(), p.OwnMap()) && this in p.tasks
      ensures Owns(p.world)
    {}

    lemma TrackedIs(p: ResourceProvider, x: Job)
      requires p.Linked(x) && this in p.tasks
      ensures Tracked(p.world, p.allocs) && p.RegisteredIn(p.ListMap(), p.CoreMap(), p.OwnMap())
        && p.Listed(p.ListMap())
    {}

    /** The task leaves every core and forgets its allocations. */
    method LetGo(p: ResourceProvider, ghost l: map<CoreScheduler, Lists>, ghost own: map<CloudTask, seq<TaskAlloc>>,
                 ghost v: seq<Core>)
      requires p.RegisteredIn(p.ListMap(), p.CoreMap(), p.OwnMap()) && this in p.tasks && Tracked(p.world, p.allocs)
      requires p.ListMap() == l && p.OwnMap() == own && p.CoresOf(l) == v
      modifies p.world`active, p.world`inFly, `allocations
      ensures p.ListMap() == p.Left(l, this) && p.OwnMap() == own[this := []]
      ensures p.Listed(p.ListMap()) && p.CoresOf(p.ListMap()) == DropFrom(v, {id})
      ensures forall c :: c in p.world ==>
          c.active == Others(old(c.active), this) && c.inFly == Others(old(c.inFly), this)
    {
      hide *;
      LeaveCores(p);
      assert p.OwnMap() == own;
      Forget(p);
    }

    /** fail: the reservation is returned, the failure counted, and every allocation let go. */
    method Fail(p: ResourceProvider, ghost x: Job)
      requires p.Linked(x) && this in p.tasks && !x.Is(this)
      modifies `failed, `allocations, p`failures, p`failed, p`holding, p.world`active, p.world`inFly
      ensures p.Linked(x)
      ensures p.Node() == FailAll(old(p.Node()), {id})
      ensures forall c :: c in p.world ==>
          c.active == Others(old(c.active), this) && c.inFly == Others(old(c.inFly), this)
    {
      hide *;
      TrackedIs(p, x);
      p.NodeIs(x);
      p.JoinedFailIs(this, x);
      ghost var l, core, own, out, n := p.ListMap(), p.CoreMap(), p.OwnMap(), p.FailedSet(), p.Node();
      MarkFailed(p);
      assert p.ListMap() == l && p.CoreMap() == core && p.OwnMap() == own;
      LetGo(p, l, own, n.cores);
      assert p.CoreMap() == core && p.FailedSet() == out + {this};
      FailedIs(p, x, l, core, own, out, n);
    }

    lemma FailedIs(p: ResourceProvider, x: Job, l: map<CoreScheduler, Lists>, core: map<TaskAlloc, CoreScheduler?>,
                   own: map<CloudTask, seq<TaskAlloc>>, out: set<CloudTask>, n: Node)
      requires p.Joined(p.Gone(Picture(l, core, own, out), this), x) && p.Backed()
      requires p.ListMap() == p.Left(l, this) && p.CoreMap() == core && p.OwnMap() == own[this := []]
        && p.FailedSet() == out + {this}
      requires p.CoresOf(p.ListMap()) == DropFrom(n.cores, {id})
      requires n.dvfs == p.dvfs && p.failed == n.failed + {id} && p.failures == n.failures + 1
      requires p.finished == n.finished && p.outputs == n.outputs && p.holding == n.holding - {id}
      ensures p.Linked(x) && p.Node() == FailAll(n, {id})
    {}

    method MarkStarted(ghost p: ResourceProvider)
      requires p.BackedBut(this) && this in p.tasks
      modifies `started
      ensures started && p.Backed()
    {
      if !started {
        started := true;
      }
    }

    method MarkFailed(p: ResourceProvider)
      requires p.Backed() && this in p.tasks
      modifies `failed, p`failures, p`failed, p`holding
      ensures p.Backed() && p.FailedSet() == old(p.FailedSet()) + {this}
      ensures p.failures == old(p.failures) + 1 && p.failed == old(p.failed) + {id}
        && p.holding == old(p.holding) - {id}
    {
      failed := true;
      if started {
        p.holding := p.holding - {id};
      }
      p.failures := p.failures + 1;
      p.failed := p.failed + {id};
    }

    method Forget(ghost p: ResourceProvider)
      requires this in p.tasks
      modifies `allocations
      ensures p.OwnMap() == old(p.OwnMap())[this := []]
    {
      allocations := [];
    }
  }

  ghost function Views(s: seq<TaskAlloc>): (r: seq<Alloc>)
    reads s
    ensures |r| == |s| && forall i | 0 <= i < |s| :: r[i] == s[i].View()
  {
    seq(|s|, i requires 0 <= i < |s| reads s => s[i].View())
  }

  /** The allocations s look like vs. */
  ghost predicate Looks(s: seq<TaskAlloc>, vs: seq<Alloc>)
    reads s
  {
    Views(s) == vs
  }

  /** Core c with the given lists. */
  ghost function CoreOf(c: CoreScheduler, l: Lists): Core
    reads c`current, l.active, l.inFly
  {
    Core(c.available, Views(l.active), Views(l.inFly), c.current)
  }

  predicate Distinct(s: seq<TaskAlloc>) {
    forall i, j | 0 <= i < j < |s| :: s[i] != s[j]
  }

  datatype Lists = Lists(active: seq<TaskAlloc>, inFly: seq<TaskAlloc>)

  /** Who points at whom: the lists of each core, the core of each allocation, the allocations of each task. */
  datatype Picture = Picture(lists: map<CoreScheduler, Lists>, core: map<TaskAlloc, CoreScheduler?>,
                             own: map<CloudTask, seq<TaskAlloc>>, failed: set<CloudTask>)

  /** The task being placed, if any: its allocations, and how many of them have a core. */
  datatype Job = Nobody | Placing(task: CloudTask, own: seq<TaskAlloc>, placed: nat) {
    predicate Is(t: CloudTask) {
      Placing? && task == t
    }

    /** One more of its allocations has a core. */
    function Next(): Job
      requires Placing?
    {
      Placing(task, own, placed + 1)
    }

    /** Its deadline is still ahead. */
    predicate Ahead(now: real) {
      Placing? ==> now < task.deadline
    }
  }

  /** A provider: its cores, its counters, its event timer, and the data center it is a part of. */
  class ResourceProvider {
    const dvfs: bool
    const cores: seq<CoreScheduler>
    var failures: nat
    var eventTime: Option<real>
    var pending: Option<real>
    var finished: map<nat, real>
    var outputs: nat
    var holding: set<nat>
    ghost var failed: set<nat>
    ghost const world: set<CoreScheduler>
    ghost const tasks: set<CloudTask>
    ghost const allocs: set<TaskAlloc>

    /** A provider with idle cores in a data center where nothing runs yet. */
    constructor (dvfs: bool, cores: seq<CoreScheduler>, ghost world: set<CoreScheduler>, ghost tasks: set<CloudTask>,
                 ghost allocs: set<TaskAlloc>)
      requires (forall i | 0 <= i < |cores| :: cores[i] in world)
        && forall i, j | 0 <= i < j < |cores| :: cores[i] != cores[j]
      requires forall c :: c in world ==> c.active == [] && c.inFly == []
      requires forall t, u :: t in tasks && u in tasks && t.id == u.id ==> t == u
      requires forall t, a :: t in tasks && a in t.allocations ==> a in allocs && a.task == t
      requires forall a :: a in allocs ==> a.task in tasks && a.core == null
      ensures this.dvfs == dvfs && this.cores == cores && this.world == world && this.tasks == tasks
        && this.allocs == allocs
      ensures Linked(Nobody) && Timer() == Scheduling.Timer(None, None)
      ensures var n := Node();
        && n.finished == map[] && n.outputs == 0 && n.failed == {} && n.failures == 0 && n.holding == {}
        && forall k | 0 <= k < |cores| :: n.cores[k] == Core(cores[k].available, [], [], cores[k].current)
    {
      this.dvfs, this.cores, this.world, this.tasks, this.allocs := dvfs, cores, world, tasks, allocs;
      failures, outputs, eventTime, pending, finished, holding, failed := 0, 0, None, None, map[], {}, {};
      new;
      NothingRuns();
      hide *;
    }

    lemma NothingRuns()
      requires (forall i | 0 <= i < |cores| :: cores[i] in world)
        && forall i, j | 0 <= i < j < |cores| :: cores[i] != cores[j]
      requires forall c :: c in world ==> c.active == [] && c.inFly == []
      requires forall t, u :: t in tasks && u in tasks && t.id == u.id ==> t == u
      requires forall t, a :: t in tasks && a in t.allocations ==> a in allocs && a.task == t
      requires forall a :: a in allocs ==> a.task in tasks && a.core == null
      requires holding == {}
      ensures Linked(Nobody)
      ensures var n := Node();
        && n.finished == finished && n.outputs == outputs && n.failed == failed && n.failures == failures
          && n.holding == holding
        && forall k | 0 <= k < |cores| :: n.cores[k] == Core(cores[k].available, [], [], cores[k].current)
    {
      NodesAre();
    }

    ghost function ListMap(): map<CoreScheduler, Lists>
      reads world`active, world`inFly
    {
      map c | c in world :: Lists(c.active, c.inFly)
    }

    ghost function CoreMap(): map<TaskAlloc, CoreScheduler?>
      reads allocs`core
    {
      map a | a in allocs :: a.core
    }

    ghost function OwnMap(): map<CloudTask, seq<TaskAlloc>>
      reads tasks`allocations
    {
      map t | t in tasks :: t.allocations
    }

    ghost function FailedSet(): set<CloudTask>
      reads tasks`failed
    {
      set t | t in tasks && t.failed
    }

    ghost function Snapshot(): Picture
      reads world`active, world`inFly, allocs`core, tasks`allocations, tasks`failed
    {
      Picture(ListMap(), CoreMap(), OwnMap(), FailedSet())
    }

    ghost function Timer(): Timer
      reads `eventTime, `pending
    {
      Scheduling.Timer(eventTime, pending)
    }

    /** nextEvent: what is scheduled stays unless it is over, or the new time is earlier. */
    method NextEvent(now: real, delay: real)
      modifies `eventTime, `pending
      ensures Timer() == Scheduling.NextEvent(old(Timer()), now, delay)
    {
      if eventTime.Some? && now >= eventTime.value {
        eventTime := None;
      }
      if eventTime.Some? && now + delay >= eventTime.value {
        return;
      }
      eventTime := Some(now + delay);
      pending := Some(now + delay);
    }

    method ScheduleNextExent(now: real, next: Option<real>)
      modifies `eventTime, `pending
      ensures Timer() == Schedule(old(Timer()), now, next)
    {
      if next.Some? {
        NextEvent(now, next.value);
      }
    }

    ghost predicate AllIn(s: seq<TaskAlloc>) {
      forall a :: a in s ==> a in allocs
    }

    /** Who is who; task ids are unique. */
    ghost predicate Registered(w: Picture) {
      RegisteredIn(w.lists, w.core, w.own)
    }

    ghost predicate RegisteredIn(lists: map<CoreScheduler, Lists>, core: map<TaskAlloc, CoreScheduler?>,
                                 own: map<CloudTask, seq<TaskAlloc>>)
    {
      && core.Keys == allocs && own.Keys == tasks
      && Listed(lists)
      && (forall i, j | 0 <= i < j < |cores| :: cores[i] != cores[j])
      && (forall a :: a in allocs ==> a.task in tasks && (core[a] == null || core[a] in world))
      && (forall t :: t in tasks ==> AllIn(own[t]))
      && (forall t, a :: t in tasks && a in own[t] ==> a.task == t)
      && (forall t, u :: t in tasks && u in tasks && t.id == u.id ==> t == u)
    }

    /** What is on list s of core c points at c, belongs to its task, and the task has not failed. */
    ghost predicate Pointed(w: Picture, c: CoreScheduler, s: seq<TaskAlloc>)
      requires Registered(w) && AllIn(s)
    {
      forall a :: a in s ==> w.core[a] == c && a in w.own[a.task] && a.task !in w.failed
    }

    ghost predicate PlacedOn(w: Picture, a: TaskAlloc)
      requires Registered(w)
    {
      exists k :: 0 <= k < |cores| && (a in w.lists[cores[k]].active || a in w.lists[cores[k]].inFly)
    }

    ghost predicate AllPlaced(w: Picture, t: CloudTask)
      requires Registered(w) && t in tasks
    {
      forall a :: a in w.own[t] ==> PlacedOn(w, a)
    }

    ghost predicate Settled(w: Picture, x: Job, s: seq<TaskAlloc>)
      requires Registered(w) && AllIn(s)
    {
      forall a :: a in s && !x.Is(a.task) ==> AllPlaced(w, a.task)
    }

    predicate Idle(x: Job, s: seq<TaskAlloc>) {
      forall a :: a in s ==> !x.Is(a.task)
    }

    /** The first allocations of the task being placed are on cores of this provider, the others on none at all. */
    ghost predicate Partway(w: Picture, x: Job)
      requires Registered(w)
    {
      x.Placing? ==>
        && x.task in tasks && w.own[x.task] == x.own && x.task !in w.failed && x.placed <= |x.own| && Distinct(x.own)
        && (forall i | 0 <= i < x.placed :: PlacedOn(w, x.own[i]))
        && (forall i, c | x.placed <= i < |x.own| && c in world ::
            x.own[i] !in w.lists[c].active && x.own[i] !in w.lists[c].inFly)
    }

    /** The back-pointer invariant.  The task being placed does not run, and some of it may be nowhere yet. */
    ghost predicate Joined(w: Picture, x: Job) {
      && Registered(w)
      && (forall c :: c in world ==> Pointed(w, c, w.lists[c].active) && Pointed(w, c, w.lists[c].inFly))
      && (forall c :: c in world ==> Distinct(w.lists[c].active + w.lists[c].inFly))
      && (forall k | 0 <= k < |cores| :: var l := w.lists[cores[k]];
            Settled(w, x, l.active) && Settled(w, x, l.inFly) && Idle(x, l.active))
      && Partway(w, x)
    }

    /** Only tasks that have started hold reservations. */
    ghost predicate Backed()
      reads `holding, tasks`started
    {
      forall t :: t in tasks && t.id in holding ==> t.started
    }

    /** The same, but for task t, which is about to start. */
    ghost predicate BackedBut(t: CloudTask)
      reads `holding, tasks`started
    {
      forall u :: u in tasks && u.id in holding && u != t ==> u.started
    }

    lemma StartedBacked()
      requires Backed() && Joined(Snapshot(), Nobody)
      ensures Linked(Nobody)
    {}

    ghost predicate Linked(x: Job)
      reads `holding, tasks`started, world`active, world`inFly, allocs`core, tasks`allocations, tasks`failed
    {
      Joined(Snapshot(), x) && Backed()
    }

    ghost predicate Listed(l: map<CoreScheduler, Lists>) {
      && l.Keys == world
      && (forall i | 0 <= i < |cores| :: cores[i] in world)
      && (forall c :: c in world ==> AllIn(l[c].active) && AllIn(l[c].inFly))
    }

    /** The provider's first n cores with the given lists. */
    ghost function CoresUpTo(l: map<CoreScheduler, Lists>, n: nat): (r: seq<Core>)
      requires Listed(l) && n <= |cores|
      reads cores`current, allocs
      ensures |r| == n && forall k | 0 <= k < n :: r[k] == CoreOf(cores[k], l[cores[k]])
    {
      if n == 0 then [] else CoresUpTo(l, n - 1) + [CoreOf(cores[n - 1], l[cores[n - 1]])]
    }

    /** The provider's cores with the given lists; of no interest when the lists are not listed here. */
    ghost function CoresOf(l: map<CoreScheduler, Lists>): (r: seq<Core>)
      reads cores`current, allocs
      ensures |r| == |cores|
      ensures Listed(l) ==> forall k | 0 <= k < |cores| :: r[k] == CoreOf(cores[k], l[cores[k]])
    {
      if Listed(l) then CoresUpTo(l, |cores|) else seq(|cores|, i => Core(0.0, [], [], 0.0))
    }

    ghost function Node(): (n: Node)
      reads `finished, `outputs, `failed, `failures, `holding, world`active, world`inFly, cores`current, allocs
      ensures |n.cores| == |cores|
    {
      Scheduling.Node(dvfs, CoresOf(ListMap()), finished, outputs, failed, failures, holding)
    }

    /** The lists once task t has left every core. */
    ghost function Left(l: map<CoreScheduler, Lists>, t: CloudTask): (r: map<CoreScheduler, Lists>)
      ensures r.Keys == l.Keys
    {
      map c | c in l :: Lists(Others(l[c].active, t), Others(l[c].inFly, t))
    }

    lemma {:induction false} ViewsOthers(s: seq<TaskAlloc>, t: CloudTask)
      requires AllIn(s) && t in tasks && (forall a :: a in allocs ==> a.task in tasks)
      requires forall t, u :: t in tasks && u in tasks && t.id == u.id ==> t == u
      ensures Views(Others(s, t)) == Drop(Views(s), {t.id})
    {
      if s != [] {
        var a, r := s[0], s[1..];
        assert s == [a] + r;
        ViewsOthers(r, t);
        var v := Views(r);
        ViewsCons(a, r);
        OthersCons(a, r, t);
        ViewsCons(a, Others(r, t));
        hide Others, Views, Drop;
        DropHead(a.View(), v, {t.id});
        assert [] + Drop(v, {t.id}) == Drop(v, {t.id}) && [] + Others(r, t) == Others(r, t);
      }
    }

    lemma CoresLeft(l: map<CoreScheduler, Lists>, t: CloudTask)
      requires Listed(l) && t in tasks && (forall a :: a in allocs ==> a.task in tasks)
      requires forall t, u :: t in tasks && u in tasks && t.id == u.id ==> t == u
      ensures Listed(Left(l, t)) && CoresOf(Left(l, t)) == DropFrom(CoresOf(l), {t.id})
    {
      forall k | 0 <= k < |cores|
        ensures Listed(Left(l, t)) && CoresOf(Left(l, t))[k] == Without(CoresOf(l)[k], {t.id})
      {
        ViewsOthers(l[cores[k]].active, t);
        ViewsOthers(l[cores[k]].inFly, t);
      }
    }

    /** A task that leaves every core for good. */
    lemma JoinedFail(w: Picture, t: CloudTask, x: Job)
      requires Joined(w, x) && t in tasks && !x.Is(t)
      ensures Joined(Gone(w, t), x)
    {
      var r := Gone(w, t);
      assert Registered(r);
      GonePointed(w, t);
      hide Distinct, Partway, RegisteredIn, Pointed, Settled, Others;
      forall k | 0 <= k < |cores|
        ensures Settled(r, x, r.lists[cores[k]].active) && Settled(r, x, r.lists[cores[k]].inFly)
        ensures Idle(x, r.lists[cores[k]].active)
      {
        SettledFail(w, t, x, w.lists[cores[k]].active);
        SettledFail(w, t, x, w.lists[cores[k]].inFly);
        IdleLess(x, w.lists[cores[k]].active, r.lists[cores[k]].active);
      }
      PartwayFail(w, t, x);
    }

    lemma GonePointed(w: Picture, t: CloudTask)
      requires Registered(w) && Registered(Gone(w, t))
      requires forall c :: c in world ==> Pointed(w, c, w.lists[c].active) && Pointed(w, c, w.lists[c].inFly)
      requires forall c :: c in world ==> Distinct(w.lists[c].active + w.lists[c].inFly)
      ensures var r := Gone(w, t);
        && (forall c :: c in world ==> Pointed(r, c, r.lists[c].active) && Pointed(r, c, r.lists[c].inFly))
        && (forall c :: c in world ==> Distinct(r.lists[c].active + r.lists[c].inFly))
    {
      var r := Gone(w, t);
      hide Distinct, Pointed, Others;
      forall c | c in world
        ensures Pointed(r, c, r.lists[c].active) && Pointed(r, c, r.lists[c].inFly)
        ensures Distinct(r.lists[c].active + r.lists[c].inFly)
      {
        GonePointedAt(w, t, c, w.lists[c].active);
        GonePointedAt(w, t, c, w.lists[c].inFly);
        OthersDistinct(w.lists[c].active, w.lists[c].inFly, t);
      }
    }

    lemma GonePointedAt(w: Picture, t: CloudTask, c: CoreScheduler, s: seq<TaskAlloc>)
      requires Registered(w) && Registered(Gone(w, t)) && AllIn(s) && Pointed(w, c, s)
      ensures AllIn(Others(s, t)) && Pointed(Gone(w, t), c, Others(s, t))
    {}

    lemma PartwayFail(w: Picture, t: CloudTask, x: Job)
      requires Registered(w) && t in tasks && Registered(Gone(w, t)) && !x.Is(t) && Partway(w, x)
      ensures Partway(Gone(w, t), x)
    {
      if x.Placing? {
        forall i | 0 <= i < x.placed
          ensures PlacedOn(Gone(w, t), x.own[i])
        {
          assert PlacedOn(w, x.own[i]) && x.own[i] in w.own[x.task];
        }
      }
    }

    ghost function Gone(w: Picture, t: CloudTask): (r: Picture)
    {
      Picture(Left(w.lists, t), w.core, w.own[t := []], w.failed + {t})
    }

    lemma SettledFail(w: Picture, t: CloudTask, x: Job, s: seq<TaskAlloc>)
      requires Registered(w) && AllIn(s) && Settled(w, x, s) && t in tasks && Registered(Gone(w, t))
      ensures Settled(Gone(w, t), x, Others(s, t))
    {
      var r := Gone(w, t);
      forall a | a in Others(s, t) && !x.Is(a.task)
        ensures AllPlaced(r, a.task)
      {
        assert AllPlaced(w, a.task);
        forall b | b in r.own[a.task]
          ensures PlacedOn(r, b)
        {
          assert PlacedOn(w, b) && b.task != t;
        }
      }
    }

    // ---------- an allocation is assigned to a core ----------

    ghost function Assigned(w: Picture, c: CoreScheduler, a: TaskAlloc): Picture
      requires c in w.lists
    {
      w.(lists := w.lists[c := Lists(w.lists[c].active, w.lists[c].inFly + [a])], core := w.core[a := c])
    }

    lemma JoinedAssigned(w: Picture, k: nat, a: TaskAlloc, x: Job)
      requires Joined(w, x) && k < |cores| && x.Placing? && x.placed < |x.own| && a == x.own[x.placed]
      ensures cores[k] in w.lists && a in allocs && Joined(Assigned(w, cores[k], a), x.Next())
    {
      var c, r := cores[k], Assigned(w, cores[k], a);
      assert a in w.own[x.task];
      assert Registered(r);
      DistinctSnoc(w.lists[c].active, w.lists[c].inFly, a);
      hide Distinct, Settled, RegisteredIn, Partway, Pointed, Idle;
      forall d | d in world
        ensures Pointed(r, d, r.lists[d].active) && Pointed(r, d, r.lists[d].inFly)
      {
        AssignedPointed(w, k, a, x, d);
      }
      forall j | 0 <= j < |cores|
        ensures Settled(r, x.Next(), r.lists[cores[j]].active) && Settled(r, x.Next(), r.lists[cores[j]].inFly)
        ensures Idle(x.Next(), r.lists[cores[j]].active)
      {
        AssignedSettled(w, k, a, x, j);
      }
      AssignedPartway(w, k, a, x);
    }

    lemma AssignedPointed(w: Picture, k: nat, a: TaskAlloc, x: Job, d: CoreScheduler)
      requires Registered(w) && k < |cores| && d in world && x.Placing? && x.placed < |x.own| && a == x.own[x.placed]
      requires Partway(w, x) && Registered(Assigned(w, cores[k], a))
      requires forall c :: c in world ==> Pointed(w, c, w.lists[c].active) && Pointed(w, c, w.lists[c].inFly)
      ensures var r := Assigned(w, cores[k], a); Pointed(r, d, r.lists[d].active) && Pointed(r, d, r.lists[d].inFly)
    {
      hide Distinct;
      assert Pointed(w, d, w.lists[d].active) && Pointed(w, d, w.lists[d].inFly);
      assert a in w.own[x.task];
    }

    lemma AssignedSettled(w: Picture, k: nat, a: TaskAlloc, x: Job, j: nat)
      requires Registered(w) && k < |cores| && j < |cores| && x.Placing? && x.placed < |x.own| && a == x.own[x.placed]
      requires Partway(w, x) && Registered(Assigned(w, cores[k], a))
      requires Settled(w, x, w.lists[cores[j]].active) && Settled(w, x, w.lists[cores[j]].inFly)
        && Idle(x, w.lists[cores[j]].active)
      ensures var r := Assigned(w, cores[k], a);
        && Settled(r, x.Next(), r.lists[cores[j]].active) && Settled(r, x.Next(), r.lists[cores[j]].inFly)
        && Idle(x.Next(), r.lists[cores[j]].active)
    {
      hide Distinct;
      var r := Assigned(w, cores[k], a);
      assert a in w.own[x.task];
      forall u, b | u in tasks && AllPlaced(w, u) && b in r.own[u]
        ensures PlacedOn(r, b)
      {
        assert PlacedOn(w, b);
      }
    }

    lemma AssignedPartway(w: Picture, k: nat, a: TaskAlloc, x: Job)
      requires Registered(w) && k < |cores| && x.Placing? && x.placed < |x.own| && a == x.own[x.placed]
      requires Partway(w, x) && Registered(Assigned(w, cores[k], a))
      ensures Partway(Assigned(w, cores[k], a), x.Next())
    {
      var r := Assigned(w, cores[k], a);
      forall i | 0 <= i < x.placed + 1
        ensures PlacedOn(r, x.own[i])
      {
        assert i < x.placed ==> PlacedOn(w, x.own[i]);
        assert i == x.placed ==> a in r.lists[cores[k]].inFly;
      }
    }

    // ---------- a task starts on a core ----------

    ghost function Begun(w: Picture, c: CoreScheduler, t: CloudTask): Picture
      requires c in w.lists
    {
      w.(lists := w.lists[c := Lists(w.lists[c].active + Mine(w.lists[c].inFly, t), Others(w.lists[c].inFly, t))])
    }

    lemma JoinedBegun(w: Picture, k: nat, t: CloudTask)
      requires Joined(w, Nobody) && k < |cores|
      ensures cores[k] in w.lists && Joined(Begun(w, cores[k], t), Nobody)
    {
      var c, r := cores[k], Begun(w, cores[k], t);
      assert Registered(r);
      SplitDistinct(w.lists[c].active, w.lists[c].inFly, t);
      hide Distinct, Mine, Others, Pointed, RegisteredIn, Settled;
      forall d | d in world
        ensures Pointed(r, d, r.lists[d].active) && Pointed(r, d, r.lists[d].inFly)
      {
        BegunPointed(w, k, t, d);
      }
      forall j | 0 <= j < |cores|
        ensures Settled(r, Nobody, r.lists[cores[j]].active) && Settled(r, Nobody, r.lists[cores[j]].inFly)
      {
        BegunSettled(w, k, t, j);
      }
    }

    lemma BegunPointed(w: Picture, k: nat, t: CloudTask, d: CoreScheduler)
      requires Registered(w) && k < |cores| && Registered(Begun(w, cores[k], t)) && d in world
      requires forall c :: c in world ==> Pointed(w, c, w.lists[c].active) && Pointed(w, c, w.lists[c].inFly)
      ensures var r := Begun(w, cores[k], t); Pointed(r, d, r.lists[d].active) && Pointed(r, d, r.lists[d].inFly)
    {
      hide Mine, Others;
      assert Pointed(w, d, w.lists[d].active) && Pointed(w, d, w.lists[d].inFly);
    }

    lemma BegunSettled(w: Picture, k: nat, t: CloudTask, j: nat)
      requires Registered(w) && k < |cores| && Registered(Begun(w, cores[k], t)) && j < |cores|
      requires forall k | 0 <= k < |cores| ::
          Settled(w, Nobody, w.lists[cores[k]].active) && Settled(w, Nobody, w.lists[cores[k]].inFly)
      ensures var r := Begun(w, cores[k], t);
        Settled(r, Nobody, r.lists[cores[j]].active) && Settled(r, Nobody, r.lists[cores[j]].inFly)
    {
      hide Mine, Others;
      var r := Begun(w, cores[k], t);
      assert Settled(w, Nobody, w.lists[cores[j]].active) && Settled(w, Nobody, w.lists[cores[j]].inFly);
      forall a | a in r.lists[cores[j]].active || a in r.lists[cores[j]].inFly
        ensures AllPlaced(r, a.task)
      {
        assert AllPlaced(w, a.task);
        forall b | b in r.own[a.task]
          ensures PlacedOn(r, b)
        {
          assert PlacedOn(w, b);
        }
      }
    }

    // ---------- an allocation is completed ----------

    /** Allocation a = l.active[i] leaves core c, and its task forgets it. */
    ghost function Shed(w: Picture, c: CoreScheduler, i: nat): (r: Picture)
      requires Registered(w) && c in world && i < |w.lists[c].active|
    {
      var l := w.lists[c];
      var a := l.active[i];
      var u := a.task;
      w.(lists := w.lists[c := Lists(Cut(l.active, i), l.inFly)], own := w.own[u := Erase(w.own[u], a)])
    }

    lemma NodeAt(k: nat)
      requires Listed(ListMap()) && k < |cores|
      ensures Node().cores[k] == CoreOf(cores[k], Lists(cores[k].active, cores[k].inFly))
    {}

    /** What is on a core of the provider belongs to a task that has not failed. */
    lemma MemberIs(k: nat, a: TaskAlloc, x: Job)
      requires Linked(x) && k < |cores| && (a in cores[k].active || a in cores[k].inFly)
      ensures cores[k] in world && a.task in tasks && !a.task.failed
      ensures a in cores[k].active ==> !x.Is(a.task)
    {}

    lemma JoinedFailIs(t: CloudTask, x: Job)
      requires Linked(x) && t in tasks && !x.Is(t)
      ensures Joined(Gone(Picture(ListMap(), CoreMap(), OwnMap(), FailedSet()), t), x)
    {
      JoinedFail(Snapshot(), t, x);
    }

    lemma NodeIs(x: Job)
      requires Linked(x)
      ensures Backed() && Node().cores == CoresOf(ListMap())
      ensures var n := Node();
        n.dvfs == dvfs && n.failed == failed && n.failures == failures && n.finished == finished && n.outputs == outputs
          && n.holding == holding
    {}

    /** No active allocation of core k is on another core. */
    lemma Elsewhere(k: nat, j: nat, x: Job)
      requires Linked(x) && k < |cores| && j < |cores| && j != k
      ensures forall i, y | 0 <= i < |cores[k].active|
        && 0 <= y < |cores[j].active| :: cores[k].active[i] != cores[j].active[y]
      ensures forall i, y | 0 <= i < |cores[k].active|
        && 0 <= y < |cores[j].inFly| :: cores[k].active[i] != cores[j].inFly[y]
    {
      var w := Snapshot();
      hide Distinct, Settled, Idle;
      assert cores[k] != cores[j] by {
        assert if j < k then cores[j] != cores[k] else cores[k] != cores[j];
      }
      assert w.lists[cores[k]] == Lists(cores[k].active, cores[k].inFly)
        && w.lists[cores[j]] == Lists(cores[j].active, cores[j].inFly);
      assert forall i | 0 <= i < |cores[k].active| :: w.core[cores[k].active[i]] == cores[k];
      assert forall y | 0 <= y < |cores[j].active| :: w.core[cores[j].active[y]] == cores[j];
      assert forall y | 0 <= y < |cores[j].inFly| :: w.core[cores[j].inFly[y]] == cores[j];
    }

    /** No allocation is twice on core k. */
    lemma OnceHere(k: nat, x: Job)
      requires Joined(Snapshot(), x) && k < |cores|
      ensures Distinct(cores[k].active) && Distinct(cores[k].inFly)
      ensures forall i, y | 0 <= i < |cores[k].active|
        && 0 <= y < |cores[k].inFly| :: cores[k].active[i] != cores[k].inFly[y]
    {
      var s, f := cores[k].active, cores[k].inFly;
      hide Settled, Idle, Pointed;
      assert Snapshot().lists[cores[k]] == Lists(s, f);
      hide Joined;
      assert Distinct(s + f);
      assert forall i | 0 <= i < |s| :: (s + f)[i] == s[i];
      assert forall y | 0 <= y < |f| :: (s + f)[|s| + y] == f[y];
    }

    /** The node once the views of core k's active list have become s. */
    lemma OnlyActive(k: nat, n: Node, s: seq<Alloc>)
      requires Listed(ListMap()) && k < |cores| == |n.cores| && Views(cores[k].active) == s
      requires n.dvfs == dvfs && n.failed == failed && n.failures == failures && n.finished == finished
        && n.outputs == outputs
        && n.holding == holding
      requires n.cores[k].available == cores[k].available && n.cores[k].current == cores[k].current
      requires Views(cores[k].inFly) == n.cores[k].inFly
      requires forall j | 0 <= j < |cores|
        && j != k :: n.cores[j] == CoreOf(cores[j], Lists(cores[j].active, cores[j].inFly))
      ensures Node() == WithActive(n, k, s)
    {
      NodesAre();
      assert Node().cores == WithActive(n, k, s).cores;
    }

    lemma MembersIn(k: nat, x: Job)
      requires Linked(x) && k < |cores|
      ensures forall i | 0 <= i < |cores[k].active| :: cores[k].active[i] in allocs
      ensures cores[k] in world && k < |Node().cores|
    {}

    lemma ActiveIs(k: nat, x: Job)
      requires Linked(x) && k < |cores|
      ensures Node().cores[k].active == Views(cores[k].active) && Node().cores[k].current == cores[k].current
    {
      NodesAre();
    }

    lemma JoinedStart(k: nat, t: CloudTask)
      requires Joined(Snapshot(), Nobody) && k < |cores|
      ensures cores[k] in world && ListMap().Keys == world
      ensures Joined(Picture(ListMap()[cores[k] := Lists(cores[k].active + Mine(cores[k].inFly, t),
        Others(cores[k].inFly, t))],
                             CoreMap(), OwnMap(), FailedSet()), Nobody)
    {
      JoinedBegun(Snapshot(), k, t);
      assert Snapshot().lists[cores[k]] == Lists(cores[k].active, cores[k].inFly);
    }

    lemma LinkedJoined(x: Job)
      requires Linked(x)
      ensures Joined(Snapshot(), x) && Backed()
    {}

    lemma LinkedAgain(x: Job)
      requires Joined(Picture(ListMap(), CoreMap(), OwnMap(), FailedSet()), x) && Backed()
      ensures Linked(x)
    {}

    /** The next allocation of the task being placed is on no core. */
    lemma Loose(k: nat, a: TaskAlloc, x: Job)
      requires Joined(Snapshot(), x) && k < |cores| && x.Placing? && x.placed < |x.own| && a == x.own[x.placed]
      ensures cores[k] in world && a in allocs
      ensures forall j, i | 0 <= j < |cores| && 0 <= i < |cores[j].active| :: cores[j].active[i] != a
      ensures forall j, i | 0 <= j < |cores| && 0 <= i < |cores[j].inFly| :: cores[j].inFly[i] != a
    {
      hide Distinct, Settled, Idle, Pointed;
      assert forall j | 0 <= j < |cores| :: Snapshot().lists[cores[j]] == Lists(cores[j].active, cores[j].inFly);
      assert a in Snapshot().own[x.task];
    }

    lemma JoinedAssign(k: nat, a: TaskAlloc, x: Job)
      requires Joined(Snapshot(), x) && k < |cores| && x.Placing? && x.placed < |x.own| && a == x.own[x.placed]
      ensures Joined(Picture(ListMap()[cores[k] := Lists(cores[k].active, cores[k].inFly + [a])],
        CoreMap()[a := cores[k]],
                             OwnMap(), FailedSet()), x.Next())
      ensures Listed(ListMap()[cores[k] := Lists(cores[k].active, cores[k].inFly + [a])])
    {
      JoinedAssigned(Snapshot(), k, a, x);
      assert Snapshot().lists[cores[k]] == Lists(cores[k].active, cores[k].inFly);
    }

    lemma InFlyIn(k: nat, x: Job)
      requires Joined(Snapshot(), x) && k < |cores|
      ensures forall i | 0 <= i < |cores[k].inFly| :: cores[k].inFly[i] in allocs
      ensures cores[k] in world && k < |Node().cores|
    {
      assert Snapshot().lists[cores[k]] == Lists(cores[k].active, cores[k].inFly);
    }

    lemma InFlyHere(k: nat, t: CloudTask, x: Job)
      requires Joined(Snapshot(), x) && k < |cores| && t in tasks
      ensures (forall a :: a in cores[k].inFly ==> a.core == cores[k]) && SameIds(cores[k].inFly, t)
      ensures forall i | 0 <= i < |cores[k].inFly| ::
        cores[k].inFly[i].task == t <==> Views(cores[k].inFly)[i].task == t.id
    {
      hide Distinct, Settled, Idle, Partway;
      assert Snapshot().lists[cores[k]] == Lists(cores[k].active, cores[k].inFly);
    }

    lemma ElsewhereFly(k: nat, j: nat, x: Job)
      requires Joined(Snapshot(), x) && k < |cores| && j < |cores| && j != k
      ensures forall i, y | 0 <= i < |cores[k].inFly|
        && 0 <= y < |cores[j].active| :: cores[k].inFly[i] != cores[j].active[y]
      ensures forall i, y | 0 <= i < |cores[k].inFly|
        && 0 <= y < |cores[j].inFly| :: cores[k].inFly[i] != cores[j].inFly[y]
    {
      var w := Snapshot();
      hide Distinct, Settled, Idle, Partway;
      CoresDiffer(k, x);
      assert w.lists[cores[k]] == Lists(cores[k].active, cores[k].inFly)
        && w.lists[cores[j]] == Lists(cores[j].active, cores[j].inFly);
      assert forall i | 0 <= i < |cores[k].inFly| :: w.core[cores[k].inFly[i]] == cores[k];
      assert forall y | 0 <= y < |cores[j].active| :: w.core[cores[j].active[y]] == cores[j];
      assert forall y | 0 <= y < |cores[j].inFly| :: w.core[cores[j].inFly[y]] == cores[j];
    }

    lemma NodeParts(k: nat, x: Job)
      requires Joined(Snapshot(), x) && k < |cores|
      ensures var n := Node();
        && k < |n.cores| && n.cores[k].available == cores[k].available && n.cores[k].current == cores[k].current
        && n.cores[k].active == Views(cores[k].active) && n.cores[k].inFly == Views(cores[k].inFly)
        && n.dvfs == dvfs && n.failed == failed && n.failures == failures && n.finished == finished
          && n.outputs == outputs
          && n.holding == holding
      ensures forall j | 0 <= j < |cores|
        && j != k :: Node().cores[j] == CoreOf(cores[j], Lists(cores[j].active, cores[j].inFly))
    {
      NodesAre();
    }

    lemma DvfsIs(k: nat, x: Job)
      requires Linked(x) && k < |cores|
      ensures Node().dvfs == dvfs && Node().cores[k].available == cores[k].available
      ensures |Node().cores[k].active| == |cores[k].active|
    {
      NodesAre();
    }

    lemma CoresDiffer(k: nat, x: Job)
      requires Joined(Snapshot(), x) && k < |cores|
      ensures forall j | 0 <= j < |cores| && j != k :: cores[j] != cores[k]
    {
      forall j | 0 <= j < |cores| && j != k
        ensures cores[j] != cores[k]
      {
        assert if j < k then cores[j] != cores[k] else cores[k] != cores[j];
      }
    }

    /** The node once the views of core k's lists have become act and fly. */
    lemma OnlyLists(k: nat, n: Node, act: seq<Alloc>, fly: seq<Alloc>)
      requires Listed(ListMap()) && k < |cores| == |n.cores| && Views(cores[k].active) == act
        && Views(cores[k].inFly) == fly
      requires n.dvfs == dvfs && n.failed == failed && n.failures == failures && n.finished == finished
        && n.outputs == outputs
        && n.holding == holding
      requires n.cores[k].available == cores[k].available && n.cores[k].current == cores[k].current
      requires forall j | 0 <= j < |cores|
        && j != k :: n.cores[j] == CoreOf(cores[j], Lists(cores[j].active, cores[j].inFly))
      ensures Node() == n.(cores := n.cores[k := n.cores[k].(active := act, inFly := fly)])
    {
      NodesAre();
      assert Node().cores == n.cores[k := n.cores[k].(active := act, inFly := fly)];
    }

    /** The node once core k has another rate. */
    lemma OnlyCurrent(k: nat, n: Node)
      requires Listed(ListMap()) && k < |cores| == |n.cores| && Views(cores[k].active) == n.cores[k].active
      requires n.dvfs == dvfs && n.failed == failed && n.failures == failures && n.finished == finished
        && n.outputs == outputs
        && n.holding == holding
      requires n.cores[k].available == cores[k].available && Views(cores[k].inFly) == n.cores[k].inFly
      requires forall j | 0 <= j < |cores|
        && j != k :: n.cores[j] == CoreOf(cores[j], Lists(cores[j].active, cores[j].inFly))
      ensures Node() == WithCurrent(n, k, cores[k].current)
    {
      NodesAre();
      assert Node().cores == WithCurrent(n, k, cores[k].current).cores;
    }

    lemma NodesAre()
      requires Listed(ListMap())
      ensures forall k | 0 <= k < |cores| :: Node().cores[k] == CoreOf(cores[k], Lists(cores[k].active, cores[k].inFly))
    {}

    lemma SnapshotIs()
      ensures Snapshot() == Picture(ListMap(), CoreMap(), OwnMap(), FailedSet())
    {}

    lemma OwnIs(t: CloudTask)
      requires t in tasks
      ensures Snapshot().own.Keys == tasks && Snapshot().own[t] == t.allocations
    {}

    lemma LinkedListed(x: Job)
      requires Linked(x)
      ensures Listed(ListMap())
    {}

    lemma ShedIs(k: nat, i: nat, x: Job)
      requires Joined(Snapshot(), x) && k < |cores| && i < |cores[k].active|
      ensures var c, w := cores[k], Snapshot();
        var a := c.active[i];
        var r := Picture(w.lists[c := Lists(Cut(c.active, i), c.inFly)], w.core,
                         w.own[a.task := Erase(a.task.allocations, a)], w.failed);
        && c in world && a.task in tasks && Listed(w.lists) && Listed(r.lists) && w.lists[c] == Lists(c.active, c.inFly)
        && Joined(r, x) && AllPlaced(r, a.task)
        && (forall i, j | 0 <= i < j < |cores| :: cores[i] != cores[j])
    {
      JoinedShed(Snapshot(), k, i, x);
    }

    lemma CoresShed(l: map<CoreScheduler, Lists>, k: nat, i: nat)
      requires Listed(l) && k < |cores| && i < |l[cores[k]].active|
        && (forall i, j | 0 <= i < j < |cores| :: cores[i] != cores[j])
      ensures var r := l[cores[k] := Lists(Cut(l[cores[k]].active, i), l[cores[k]].inFly)];
        && Listed(r)
        && CoresOf(r) == CoresOf(l)[k := CoresOf(l)[k].(active := Cut(CoresOf(l)[k].active, i))]
    {
      var c := cores[k];
      var r := l[c := Lists(Cut(l[c].active, i), l[c].inFly)];
      assert Views(Cut(l[c].active, i)) == Cut(Views(l[c].active), i);
      var v := CoresOf(l)[k := CoresOf(l)[k].(active := Cut(CoresOf(l)[k].active, i))];
      forall j | 0 <= j < |cores|
        ensures CoresOf(r)[j] == v[j]
      {
        if j != k {
          assert cores[j] != c by { assert if j < k then cores[j] != cores[k] else cores[k] != cores[j]; }
        }
      }
    }

    lemma JoinedShed(w: Picture, k: nat, i: nat, x: Job)
      requires Joined(w, x) && k < |cores| && i < |w.lists[cores[k]].active|
      ensures Joined(Shed(w, cores[k], i), x) && AllPlaced(Shed(w, cores[k], i), w.lists[cores[k]].active[i].task)
    {
      var c, r := cores[k], Shed(w, cores[k], i);
      var l := w.lists[c];
      var a := l.active[i];
      assert a in l.active;
      IdleSettled(w, x, l.active, a);
      ShedRegistered(w, k, i);
      hide Distinct, Settled, Partway, Idle, RegisteredIn, Pointed, Shed;
      forall d | d in world
        ensures Pointed(r, d, r.lists[d].active) && Pointed(r, d, r.lists[d].inFly)
      {
        ShedPointed(w, k, i, d);
      }
      ShedPlaced(w, k, i, a.task);
      forall j | 0 <= j < |cores|
        ensures Settled(r, x, r.lists[cores[j]].active) && Settled(r, x, r.lists[cores[j]].inFly)
          && Idle(x, r.lists[cores[j]].active)
      {
        ShedSettled(w, k, i, x, w.lists[cores[j]].active, r.lists[cores[j]].active);
        ShedSettled(w, k, i, x, w.lists[cores[j]].inFly, r.lists[cores[j]].inFly);
        IdleLess(x, w.lists[cores[j]].active, r.lists[cores[j]].active);
      }
      PartwayShed(w, k, i, x);
    }

    lemma ShedRegistered(w: Picture, k: nat, i: nat)
      requires Registered(w) && k < |cores| && i < |w.lists[cores[k]].active|
      requires forall c :: c in world ==> Distinct(w.lists[c].active + w.lists[c].inFly)
      ensures var r := Shed(w, cores[k], i);
        && Registered(r)
        && (forall c :: c in world ==> Distinct(r.lists[c].active + r.lists[c].inFly))
        && (forall c, a :: c in world && a in r.lists[c].active ==> a in w.lists[c].active)
        && (forall c :: c in world ==> r.lists[c].inFly == w.lists[c].inFly)
    {
      var c := cores[k];
      EraseIs(w.own[w.lists[c].active[i].task], w.lists[c].active[i]);
      CutDistinct(w.lists[c].active, w.lists[c].inFly, i);
      hide Distinct, Erase, Cut;
    }

    lemma PartwayShed(w: Picture, k: nat, i: nat, x: Job)
      requires Registered(w) && k < |cores| && i < |w.lists[cores[k]].active| && Registered(Shed(w, cores[k], i))
      requires Partway(w, x) && !x.Is(w.lists[cores[k]].active[i].task)
      ensures Partway(Shed(w, cores[k], i), x)
    {
      var r, a := Shed(w, cores[k], i), w.lists[cores[k]].active[i];
      hide Cut, Erase;
      if x.Placing? {
        forall j | 0 <= j < x.placed
          ensures PlacedOn(r, x.own[j])
        {
          assert PlacedOn(w, x.own[j]) && x.own[j] in w.own[x.task] && x.own[j] != a;
        }
      }
    }

    lemma IdleSettled(w: Picture, x: Job, s: seq<TaskAlloc>, a: TaskAlloc)
      requires Registered(w) && AllIn(s) && Settled(w, x, s) && Idle(x, s) && a in s
      ensures AllPlaced(w, a.task) && !x.Is(a.task)
    {}

    lemma IdleLess(x: Job, s: seq<TaskAlloc>, r: seq<TaskAlloc>)
      requires Idle(x, s) && forall a :: a in r ==> a in s
      ensures Idle(x, r)
    {}

    lemma ShedPointed(w: Picture, k: nat, i: nat, d: CoreScheduler)
      requires Registered(w) && k < |cores| && i < |w.lists[cores[k]].active| && Registered(Shed(w, cores[k], i))
        && d in world
      requires forall c :: c in world ==> Pointed(w, c, w.lists[c].active) && Pointed(w, c, w.lists[c].inFly)
      requires Distinct(w.lists[cores[k]].active + w.lists[cores[k]].inFly)
      ensures var r := Shed(w, cores[k], i);
        Pointed(r, d, r.lists[d].active) && Pointed(r, d, r.lists[d].inFly)
    {
      var c, r := cores[k], Shed(w, cores[k], i);
      var a := w.lists[c].active[i];
      EraseIs(w.own[a.task], a);
      CutDistinct(w.lists[c].active, w.lists[c].inFly, i);
      hide Distinct, Erase, Cut;
      assert Pointed(w, c, w.lists[c].active) && a in w.lists[c].active && w.core[a] == c;
      forall b | b in r.lists[d].active + r.lists[d].inFly
        ensures b in w.lists[d].active + w.lists[d].inFly && b != a
      {}
    }

    lemma ShedPlaced(w: Picture, k: nat, i: nat, t: CloudTask)
      requires Registered(w) && k < |cores| && i < |w.lists[cores[k]].active| && Registered(Shed(w, cores[k], i))
        && t in tasks
      requires AllPlaced(w, t)
      ensures AllPlaced(Shed(w, cores[k], i), t)
    {
      var c, r := cores[k], Shed(w, cores[k], i);
      var a := w.lists[c].active[i];
      EraseIs(w.own[a.task], a);
      hide Erase, Cut;
      forall b | b in r.own[t]
        ensures PlacedOn(r, b)
      {
        assert b in w.own[t] && b != a && PlacedOn(w, b);
      }
    }

    lemma ShedSettled(w: Picture, k: nat, i: nat, x: Job, s: seq<TaskAlloc>, s1: seq<TaskAlloc>)
      requires Registered(w) && k < |cores| && i < |w.lists[cores[k]].active| && Registered(Shed(w, cores[k], i))
      requires AllIn(s) && Settled(w, x, s) && forall a :: a in s1 ==> a in s
      ensures AllIn(s1) && Settled(Shed(w, cores[k], i), x, s1)
    {
      hide AllPlaced;
      forall b | b in s1 && !x.Is(b.task)
        ensures AllPlaced(Shed(w, cores[k], i), b.task)
      {
        ShedPlaced(w, k, i, b.task);
      }
    }

    /** The views of a list show task t exactly when the list does. */
    lemma ViewsHave(s: seq<TaskAlloc>, t: CloudTask)
      requires AllIn(s) && t in tasks && (forall a :: a in allocs ==> a.task in tasks)
      requires forall t, u :: t in tasks && u in tasks && t.id == u.id ==> t == u
      ensures (exists v :: v in Views(s) && v.task == t.id) <==> exists a :: a in s && a.task == t
    {
      if a :| a in s && a.task == t {
        var i :| 0 <= i < |s| && s[i] == a;
        assert Views(s)[i] in Views(s);
      }
      if v :| v in Views(s) && v.task == t.id {
        var i :| 0 <= i < |s| && Views(s)[i] == v;
        assert s[i] in s;
      }
    }

    /** A task all of whose allocations are on cores is on no core exactly when it has none left. */
    lemma FinishedIs(w: Picture, t: CloudTask, x: Job)
      requires Joined(w, x) && t in tasks && AllPlaced(w, t)
      ensures Absent(CoresOf(w.lists), t.id) <==> w.own[t] == []
    {
      hide Distinct, Settled, Idle, Views;
      forall k | 0 <= k < |cores|
        ensures OnCore(CoresOf(w.lists)[k], t.id) <==>
          (exists a :: a in w.lists[cores[k]].active && a.task == t)
            || (exists a :: a in w.lists[cores[k]].inFly && a.task == t)
      {
        ViewsHave(w.lists[cores[k]].active, t);
        ViewsHave(w.lists[cores[k]].inFly, t);
      }
      if w.own[t] != [] {
        var a := w.own[t][0];
        assert PlacedOn(w, a);
        var k :| 0 <= k < |cores| && (a in w.lists[cores[k]].active || a in w.lists[cores[k]].inFly);
        assert CoresOf(w.lists)[k] in CoresOf(w.lists);
      } else {
        forall c | c in CoresOf(w.lists)
          ensures !OnCore(c, t.id)
        {
          var k :| 0 <= k < |cores| && CoresOf(w.lists)[k] == c;
        }
      }
    }

    // ---------- the provider's own operations ----------

    /** handle: every core brings its list up to date. */
    method Handle(now: real, ghost n: Node, ghost tm: Timer)
      requires Linked(Nobody) && n == Node() && tm == Timer()
      modifies cores`current, allocs`mips, allocs`since, allocs`perf, `eventTime, `pending
      modifies world`active, world`inFly, tasks`allocations, tasks`failed
      modifies `finished, `outputs, `holding, `failures, `failed
      ensures Linked(Nobody) && Node() == Scheduling.Handle(n, tm, now).0 && Timer() == Scheduling.Handle(n, tm, now).1
    {
      hide *;
      HandleIs(n, tm, now);
      for k := 0 to |cores|
        invariant Linked(Nobody) && RunCores(Node(), Timer(), k, now, None) == RunCores(n, tm, 0, now, None)
      {
        RunCoresNext(Node(), Timer(), k, now, None);
        TurnIs(Node(), k, now, None);
        cores[k].UpdateTskList(this, k, now, Node(), Timer());
      }
      RunCoresEnd(Node(), Timer(), now, None);
    }

    /** The loop of recv: the task starts on every core that holds some of it. */
    method StartEverywhere(t: CloudTask, now: real, ghost n: Node, ghost tm: Timer)
      requires Joined(Snapshot(), Nobody) && BackedBut(t) && t in tasks && cores != [] && n == Node() && tm == Timer()
      modifies cores`current, allocs`mips, allocs`since, allocs`perf, allocs`core, `eventTime, `pending, t`started
      modifies world`active, world`inFly, tasks`allocations, tasks`failed
      modifies `finished, `outputs, `holding, `failures, `failed
      ensures Linked(Nobody)
      ensures Node() == RunCores(n, tm, 0, now, Some(t.id)).0 && Timer() == RunCores(n, tm, 0, now, Some(t.id)).1
    {
      hide *;
      for k := 0 to |cores|
        invariant Joined(Snapshot(), Nobody) && BackedBut(t) && (k > 0 ==> Linked(Nobody))
        invariant RunCores(Node(), Timer(), k, now, Some(t.id)) == RunCores(n, tm, 0, now, Some(t.id))
      {
        RunCoresNext(Node(), Timer(), k, now, Some(t.id));
        cores[k].StartTaskExecution(this, t, k, now, Node(), Timer());
        LinkedParts(t);
      }
      RunCoresEnd(Node(), Timer(), now, Some(t.id));
    }

    lemma LinkedParts(t: CloudTask)
      requires Linked(Nobody)
      ensures Joined(Snapshot(), Nobody) && BackedBut(t)
    {}

    // ---------- placing a task ----------

    /** The allocations of the task being placed look like vs: none of them runs. */
    ghost predicate Waiting(x: Job, vs: seq<Alloc>)
      reads allocs`mips, allocs`perf, allocs`since
    {
      x.Placing? && x.placed <= |x.own| == |vs|
      && forall j | 0 <= j < |vs| :: x.own[j] in allocs && x.own[j].View() == vs[j]
    }

    /** No allocation of the task being placed runs anywhere. */
    lemma WaitingIsLoose(k: nat, x: Job)
      requires Linked(x) && x.Placing? && k < |cores|
      ensures cores[k] in world
      ensures forall i, j | 0 <= i < |cores[k].active| && 0 <= j < |x.own| :: cores[k].active[i] != x.own[j]
    {
      hide Distinct, Settled, Pointed;
      assert Snapshot().lists[cores[k]] == Lists(cores[k].active, cores[k].inFly);
      forall i | 0 <= i < |cores[k].active|
        ensures cores[k].active[i].task != x.task
      {
        assert cores[k].active[i] in Snapshot().lists[cores[k]].active;
      }
      forall j | 0 <= j < |x.own|
        ensures x.own[j].task == x.task
      {
        assert x.own[j] in Snapshot().own[x.task];
      }
    }

    /** getMostUrgentTaskRate of core k, which leaves the waiting allocations as they are. */
    method AskCore(k: nat, now: real, ghost x: Job, ghost vs: seq<Alloc>, ghost n: Node) returns (rate: real)
      requires Linked(x) && x.Ahead(now) && Waiting(x, vs) && k < |cores| && n == Node()
      modifies cores[k].active`mips, cores[k].active`since
      modifies world`active, world`inFly, tasks`allocations, tasks`failed
      modifies `finished, `outputs, `holding, `failures, `failed
      ensures Waiting(x, vs) && Linked(x) && Node() == Swept(n, k, now)
        && rate == Urgency(Swept(n, k, now).cores[k], now)
    {
      hide Linked, Node, Swept, Urgency, Job.Ahead;
      WaitingIsLoose(k, x);
      rate := cores[k].GetMostUrgentTaskRate(this, k, now, x, n);
    }

    /** The admission test of core k for the next allocation a of the task being placed. */
    method TryCore(k: nat, a: TaskAlloc, tskrate: real, now: real, ghost x: Job, ghost vs: seq<Alloc>, ghost n: Node)
      returns (found: bool)
      requires Linked(x) && x.Ahead(now) && Waiting(x, vs) && x.placed < |vs| && a == x.own[x.placed]
      requires k < |cores| && n == Node() && now < vs[x.placed].deadline && tskrate == Required(vs[x.placed], now)
      modifies cores[k].active`mips, cores[k].active`since, a`core
      modifies world`active, world`inFly, tasks`allocations, tasks`failed
      modifies `finished, `outputs, `holding, `failures, `failed
      ensures Waiting(if found then x.Next() else x, vs) && Linked(if found then x.Next() else x)
      ensures found <==> Admits(Swept(n, k, now).cores[k], vs[x.placed], now)
      ensures Node() == if found then Assign(Swept(n, k, now), k, vs[x.placed]) else Swept(n, k, now)
    {
      hide *;
      WaitingIs(x, vs);
      WaitingIsLoose(k, x);
      var maxrate := AskCore(k, now, x, vs, n);
      DvfsIs(k, x);
      LoadIs(k, x);
      AdmitsIs(Swept(n, k, now).cores[k], vs[x.placed], now, tskrate, maxrate);
      if tskrate > maxrate {
        maxrate := tskrate;
      }
      var c := cores[k];
      found := maxrate * (|c.active| + |c.inFly| + 1) as real <= c.available;
      WaitingIs(x, vs);
      if found {
        c.AssignNext(this, a, k, x, Node());
        WaitingNext(x, vs);
      }
    }

    lemma WaitingIs(x: Job, vs: seq<Alloc>)
      requires Waiting(x, vs) && x.placed < |vs|
      ensures x.Placing? && |x.own| == |vs| && x.own[x.placed].View() == vs[x.placed]
    {}

    lemma SameViews(x: Job, vs: seq<Alloc>)
      requires Waiting(x, vs)
      ensures Looks(x.own, vs)
    {}

    lemma WaitingNext(x: Job, vs: seq<Alloc>)
      requires Waiting(x, vs) && x.placed < |vs|
      ensures Waiting(x.Next(), vs)
    {}

    lemma LoadIs(k: nat, x: Job)
      requires Linked(x) && k < |cores|
      ensures Load(Node().cores[k]) == |cores[k].active| + |cores[k].inFly|
    {
      NodesAre();
    }

    /** The first core that passes the admission test takes the next allocation of the task being placed. */
    method PlaceNext(a: TaskAlloc, now: real, ghost x: Job, ghost vs: seq<Alloc>, ghost n: Node) returns (found: bool)
      requires Linked(x) && x.Ahead(now) && Waiting(x, vs) && x.placed < |vs| && a == x.own[x.placed]
      requires n == Node() && now < vs[x.placed].deadline && now < a.task.deadline
      modifies allocs`mips, allocs`since, a`core
      modifies world`active, world`inFly, tasks`allocations, tasks`failed
      modifies `finished, `outputs, `holding, `failures, `failed
      ensures Waiting(if found then x.Next() else x, vs) && Linked(if found then x.Next() else x)
      ensures Node() == PlaceFrom(n, vs[x.placed], now, 0).0 && found == PlaceFrom(n, vs[x.placed], now, 0).1
    {
      hide *;
      WaitingIs(x, vs);
      var tskrate := a.RequiredRate(now);
      for k := 0 to |cores|
        invariant Linked(x) && Waiting(x, vs)
        invariant PlaceFrom(Node(), vs[x.placed], now, k) == PlaceFrom(n, vs[x.placed], now, 0)
      {
        PlaceFromIs(Node(), vs[x.placed], now, k);
        MembersIn(k, x);
        found := TryCore(k, a, tskrate, now, x, vs, Node());
        if found {
          return;
        }
      }
      PlaceFromIs(Node(), vs[x.placed], now, |cores|);
      found := false;
    }

    /** A task that has not failed, and none of whose allocations is on any core of the data center. */
    ghost predicate Unplaced(t: CloudTask)
      reads t`failed, t`allocations, world`active, world`inFly
    {
      && t in tasks && !t.failed && Distinct(t.allocations)
      && forall a, c :: a in t.allocations && c in world ==> a !in c.active && a !in c.inFly
    }

    lemma BeginPlacing(t: CloudTask)
      requires Linked(Nobody) && Unplaced(t)
      ensures Linked(Placing(t, t.allocations, 0))
    {
      var w, x := Snapshot(), Placing(t, t.allocations, 0);
      hide Distinct;
      assert Partway(w, x) by {
        forall i, c | 0 <= i < |x.own| && c in world
          ensures x.own[i] !in w.lists[c].active && x.own[i] !in w.lists[c].inFly
        {
          assert x.own[i] in t.allocations;
        }
      }
      forall k, a | 0 <= k < |cores| && a in w.lists[cores[k]].active
        ensures a.task != t
      {
        assert Pointed(w, cores[k], w.lists[cores[k]].active);
        assert a in w.own[a.task];
      }
    }

    lemma EndPlacing(x: Job)
      requires Linked(x) && x.Placing? && x.placed == |x.own|
      ensures Linked(Nobody) && x.task.allocations == x.own && !x.task.failed
    {
      var w := Snapshot();
      hide Distinct, Pointed;
      assert AllPlaced(w, x.task) by {
        forall a | a in w.own[x.task]
          ensures PlacedOn(w, a)
        {
          var i :| 0 <= i < |x.own| && x.own[i] == a;
        }
      }
    }

    lemma OwnNow(x: Job)
      requires Linked(x) && x.Placing?
      ensures x.task in tasks && x.task.allocations == x.own && !x.task.failed && x.placed <= |x.own| && Distinct(x.own)
    {}

    lemma UnplacedIs(t: CloudTask)
      requires t in tasks && !t.failed && Distinct(t.allocations)
      requires forall a, c :: a in t.allocations && c in world ==> a !in c.active && a !in c.inFly
      ensures Unplaced(t)
    {}

    lemma WaitingAll(t: CloudTask, vs: seq<Alloc>)
      requires Linked(Nobody) && t in tasks && Looks(t.allocations, vs)
      ensures Waiting(Placing(t, t.allocations, 0), vs)
    {
      forall j | 0 <= j < |vs|
        ensures t.allocations[j] in allocs
      {
        assert t.allocations[j] in Snapshot().own[t];
      }
    }

    /** Allocation i gets a core, or the task stays where it was. */
    method PlaceOne(t: CloudTask, i: nat, now: real, ghost v: Task, ghost own: seq<TaskAlloc>, ghost vs: seq<Alloc>,
                    ghost n: Node)
      returns (found: bool)
      requires Linked(Placing(t, own, i)) && Waiting(Placing(t, own, i), vs) && i < |own| == |vs|
        && t.allocations == own
      requires n == Node() && now < t.deadline && Describes(v, t, vs)
      modifies allocs`mips, allocs`since, allocs`core
      modifies world`active, world`inFly, tasks`allocations, tasks`failed
      modifies `finished, `outputs, `holding, `failures, `failed
      ensures var j := if found then i + 1 else i;
        Linked(Placing(t, own, j)) && Waiting(Placing(t, own, j), vs) && t.allocations == own
      ensures i < |v.loads| && now < v.deadline
      ensures Node() == PlaceFrom(n, Fresh(v, i), now, 0).0 && found == PlaceFrom(n, Fresh(v, i), now, 0).1
    {
      ghost var x := Placing(t, own, i);
      hide Linked, Node, Waiting, PlaceFrom, Views;
      WaitingIs(x, vs);
      OwnNow(x);
      NextIn(x);
      found := PlaceNext(t.allocations[i], now, x, vs, Node());
      OwnNow(if found then x.Next() else x);
    }

    lemma NextIn(x: Job)
      requires Linked(x) && x.Placing? && x.placed < |x.own|
      ensures x.own[x.placed] in allocs && x.own[x.placed].task == x.task
    {
      assert x.own[x.placed] in Snapshot().own[x.task];
    }

    /** A task that leaves every core but keeps its allocations. */
    lemma JoinedWithdraw(w: Picture, t: CloudTask, x: Job)
      requires Joined(w, x) && t in tasks && (x.Placing? ==> x.task == t)
      ensures Joined(w.(lists := Left(w.lists, t)), Nobody)
    {
      var r := w.(lists := Left(w.lists, t));
      assert Registered(r);
      assert Partway(r, Nobody);
      WithdrawPointed(w, t);
      hide Distinct, Partway, RegisteredIn, Pointed, Settled, Others;
      forall k | 0 <= k < |cores|
        ensures Settled(r, Nobody, r.lists[cores[k]].active) && Settled(r, Nobody, r.lists[cores[k]].inFly)
      {
        SettledWithdraw(w, t, x, w.lists[cores[k]].active);
        SettledWithdraw(w, t, x, w.lists[cores[k]].inFly);
      }
    }

    lemma WithdrawPointed(w: Picture, t: CloudTask)
      requires Registered(w) && Registered(w.(lists := Left(w.lists, t)))
      requires forall c :: c in world ==> Pointed(w, c, w.lists[c].active) && Pointed(w, c, w.lists[c].inFly)
      requires forall c :: c in world ==> Distinct(w.lists[c].active + w.lists[c].inFly)
      ensures var r := w.(lists := Left(w.lists, t));
        && (forall c :: c in world ==> Pointed(r, c, r.lists[c].active) && Pointed(r, c, r.lists[c].inFly))
        && (forall c :: c in world ==> Distinct(r.lists[c].active + r.lists[c].inFly))
    {
      var r := w.(lists := Left(w.lists, t));
      hide Distinct;
      forall c | c in world
        ensures Pointed(r, c, r.lists[c].active) && Pointed(r, c, r.lists[c].inFly)
        ensures Distinct(r.lists[c].active + r.lists[c].inFly)
      {
        OthersDistinct(w.lists[c].active, w.lists[c].inFly, t);
      }
    }

    lemma SettledWithdraw(w: Picture, t: CloudTask, x: Job, s: seq<TaskAlloc>)
      requires Registered(w) && AllIn(s) && Settled(w, x, s) && t in tasks && (x.Placing? ==> x.task == t)
      requires Registered(w.(lists := Left(w.lists, t)))
      ensures Settled(w.(lists := Left(w.lists, t)), Nobody, Others(s, t))
    {
      var r := w.(lists := Left(w.lists, t));
      forall a | a in Others(s, t)
        ensures AllPlaced(r, a.task)
      {
        assert AllPlaced(w, a.task);
        forall b | b in r.own[a.task]
          ensures PlacedOn(r, b)
        {
          assert PlacedOn(w, b) && b.task != t;
        }
      }
    }

    /** releaseAllTaskAllocs, with no other consequence. */
    method WithdrawTask(t: CloudTask, ghost x: Job, ghost n: Node)
      requires Linked(x) && t in tasks && (x.Placing? ==> x.task == t) && n == Node()
      modifies world`active, world`inFly
      ensures Linked(Nobody) && Node() == Withdraw(n, t.id)
      ensures forall c, a :: c in world && a in t.allocations ==> a !in c.active && a !in c.inFly
    {
      hide *;
      t.TrackedIs(this, x);
      NodeIs(x);
      WithdrawIs(t, x);
      ghost var core, own, out := CoreMap(), OwnMap(), FailedSet();
      t.LeaveCores(this);
      WithdrawnIs(t, n, core, own, out);
    }

    lemma WithdrawIs(t: CloudTask, x: Job)
      requires Linked(x) && t in tasks && (x.Placing? ==> x.task == t)
      ensures Joined(Picture(Left(ListMap(), t), CoreMap(), OwnMap(), FailedSet()), Nobody)
    {
      JoinedWithdraw(Snapshot(), t, x);
    }

    lemma WithdrawnIs(t: CloudTask, n: Node, core: map<TaskAlloc, CoreScheduler?>, own: map<CloudTask, seq<TaskAlloc>>,
                      out: set<CloudTask>)
      requires Joined(Picture(ListMap(), core, own, out), Nobody) && Backed() && t in tasks
      requires CoreMap() == core && OwnMap() == own && FailedSet() == out
      requires CoresOf(ListMap()) == DropFrom(n.cores, {t.id})
      requires n.dvfs == dvfs && n.failed == failed && n.failures == failures && n.finished == finished
        && n.outputs == outputs
        && n.holding == holding
      requires forall c, a :: c in world && (a in c.active || a in c.inFly) ==> a.task != t
      ensures Linked(Nobody) && Node() == Withdraw(n, t.id)
      ensures forall c, a :: c in world && a in t.allocations ==> a !in c.active && a !in c.inFly
    {
      forall a | a in t.allocations
        ensures a.task == t
      {
        assert a in own[t];
      }
    }

    /** Task t as a value: its allocations as they were created. */
    ghost predicate Describes(v: Task, t: CloudTask, vs: seq<Alloc>)
      reads t`allocations
    {
      && v.id == t.id && v.deadline == t.deadline && |v.loads| == |vs| == |t.allocations|
      && forall j | 0 <= j < |vs| :: vs[j] == Fresh(v, j)
    }

    /** No core was found for an allocation: the task leaves every core. */
    method GiveUp(t: CloudTask, ghost own: seq<TaskAlloc>, ghost i: nat, ghost n: Node)
      requires Linked(Placing(t, own, i)) && n == Node()
      modifies world`active, world`inFly
      ensures Linked(Nobody) && Unplaced(t) && Node() == Withdraw(n, t.id)
    {
      hide *;
      OwnNow(Placing(t, own, i));
      WithdrawTask(t, Placing(t, own, i), n);
      UnplacedIs(t);
    }

    lemma DescribesIs(v: Task, t: CloudTask, vs: seq<Alloc>)
      requires Describes(v, t, vs)
      ensures v.id == t.id && v.deadline == t.deadline && |v.loads| == |vs| == |t.allocations|
    {}

    lemma UnplacedOk(t: CloudTask)
      requires Unplaced(t)
      ensures t in tasks && !t.failed && Distinct(t.allocations)
    {}

    /** One turn of the loop of trySchedulingTsk. */
    method PlaceOrGiveUp(t: CloudTask, i: nat, now: real, ghost v: Task, ghost own: seq<TaskAlloc>,
                         ghost vs: seq<Alloc>,
                         ghost m: (Node, bool))
      returns (found: bool)
      requires Linked(Placing(t, own, i)) && Waiting(Placing(t, own, i), vs) && i < |own| == |vs| == |v.loads|
        && t.allocations == own
      requires now < t.deadline == v.deadline && v.id == t.id && Describes(v, t, vs)
        && PlaceAllocs(Node(), v, now, i) == m
      modifies allocs`mips, allocs`since, allocs`core
      modifies world`active, world`inFly, tasks`allocations, tasks`failed
      modifies `finished, `outputs, `holding, `failures, `failed
      ensures t.allocations == own && !t.failed && Looks(own, vs)
      ensures found ==> Linked(Placing(t, own, i + 1)) && Waiting(Placing(t, own, i + 1), vs)
      ensures found ==> PlaceAllocs(Node(), v, now, i + 1) == m
      ensures !found ==> Linked(Nobody) && Unplaced(t) && (Node(), false) == m
    {
      hide *;
      PlaceAllocsNext(Node(), v, now, i);
      found := PlaceOne(t, i, now, v, own, vs, Node());
      OwnNow(Placing(t, own, if found then i + 1 else i));
      SameViews(Placing(t, own, if found then i + 1 else i), vs);
      if !found {
        GiveUp(t, own, i, Node());
      }
    }

    /** The loop of trySchedulingTsk: every allocation gets a core, or none keeps one. */
    method PlaceTask(t: CloudTask, now: real, ghost v: Task, ghost vs: seq<Alloc>, ghost m: (Node, bool))
      returns (ok: bool)
      requires Linked(Nobody) && Unplaced(t) && now < t.deadline
      requires Looks(t.allocations, vs) && Describes(v, t, vs) && m == PlaceAllocs(Node(), v, now, 0)
      modifies allocs`mips, allocs`since, allocs`core
      modifies world`active, world`inFly, tasks`allocations, tasks`failed
      modifies `finished, `outputs, `holding, `failures, `failed
      ensures Linked(Nobody) && t.allocations == old(t.allocations) && !t.failed
      ensures (Node(), ok) == m && (!ok ==> Unplaced(t)) && Looks(t.allocations, vs)
    {
      ghost var own := t.allocations;
      hide *;
      BeginPlacing(t);
      UnplacedOk(t);
      WaitingAll(t, vs);
      DescribesIs(v, t, vs);
      ok := PlaceEach(t, now, v, own, vs, m);
      if ok {
        EndPlacing(Placing(t, own, |own|));
        SameViews(Placing(t, own, |own|), vs);
      }
    }

    /** Its loop over the allocations. */
    method PlaceEach(t: CloudTask, now: real, ghost v: Task, ghost own: seq<TaskAlloc>, ghost vs: seq<Alloc>,
                     ghost m: (Node, bool))
      returns (ok: bool)
      requires Linked(Placing(t, own, 0)) && Waiting(Placing(t, own, 0), vs) && |own| == |vs| == |v.loads|
        && t.allocations == own
      requires now < t.deadline == v.deadline && v.id == t.id && Describes(v, t, vs)
        && PlaceAllocs(Node(), v, now, 0) == m
      modifies allocs`mips, allocs`since, allocs`core
      modifies world`active, world`inFly, tasks`allocations, tasks`failed
      modifies `finished, `outputs, `holding, `failures, `failed
      ensures t.allocations == own && (!ok ==> !t.failed && Looks(own, vs))
      ensures ok ==> Linked(Placing(t, own, |own|)) && Waiting(Placing(t, own, |own|), vs)
      ensures (Node(), ok) == m && (!ok ==> Linked(Nobody) && Unplaced(t))
    {
      hide *;
      var i := 0;
      while i < |t.allocations|
        invariant i <= |own| && Linked(Placing(t, own, i)) && Waiting(Placing(t, own, i), vs) && t.allocations == own
        invariant Describes(v, t, vs) && PlaceAllocs(Node(), v, now, i) == m
        decreases |own| - i
      {
        ok := PlaceOrGiveUp(t, i, now, v, own, vs, m);
        if !ok {
          return;
        }
        i := i + 1;
      }
      PlaceAllocsEnd(Node(), v, now);
      ok := true;
    }

    /**
     trySchedulingTsk; fits is the outcome of tryToAllocate, whose reservation is returned at once
     (module ResourcePool).
     */
    method TrySchedulingTsk(t: CloudTask, now: real, fits: bool, ghost v: Task, ghost vs: seq<Alloc>,
                            ghost m: (Node, bool))
      returns (ok: bool)
      requires Linked(Nobody) && Unplaced(t) && now < t.deadline
      requires Looks(t.allocations, vs) && Describes(v, t, vs) && m == TrySchedule(Node(), v, now, fits)
      modifies allocs`mips, allocs`since, allocs`core, t`scheduled
      modifies world`active, world`inFly, tasks`allocations, tasks`failed
      modifies `finished, `outputs, `holding, `failures, `failed
      ensures Linked(Nobody) && t in tasks && t.allocations == old(t.allocations) && !t.failed
        && Looks(t.allocations, vs)
      ensures (Node(), ok) == m && (!ok ==> Unplaced(t))
      ensures t.scheduled == (ok || old(t.scheduled))
    {
      hide *;
      TryIs(t, v, vs, now, fits);
      if !fits {
        return false;
      }
      ok := PlaceTask(t, now, v, vs, m);
      if ok {
        t.scheduled := true;
      }
    }

    lemma TryIs(t: CloudTask, v: Task, vs: seq<Alloc>, now: real, fits: bool)
      requires Unplaced(t) && Describes(v, t, vs) && now < t.deadline
      ensures t in tasks && !t.failed && Distinct(t.allocations) && now < v.deadline && v.id == t.id
      ensures TrySchedule(Node(), v, now, fits) == if fits then PlaceAllocs(Node(), v, now, 0) else (Node(), false)
    {}

    /** testSchedulingPossibility: whatever was placed is taken back, so the task is where it was. */
    method TestSchedulingPossibility(t: CloudTask, now: real, fits: bool, ghost v: Task, ghost vs: seq<Alloc>)
      returns (result: bool)
      requires Linked(Nobody) && Unplaced(t) && now < t.deadline && !t.scheduled
      requires Looks(t.allocations, vs) && Describes(v, t, vs)
      modifies allocs`mips, allocs`since, allocs`core, t`scheduled
      modifies world`active, world`inFly, tasks`allocations, tasks`failed
      modifies `finished, `outputs, `holding, `failures, `failed
      ensures Linked(Nobody) && Unplaced(t) && !t.scheduled
      ensures t.allocations == old(t.allocations) && Looks(t.allocations, vs)
      ensures (Node(), result) == Probe(old(Node()), v, now, fits)
    {
      hide *;
      TryIs(t, v, vs, now, fits);
      ghost var m := TrySchedule(Node(), v, now, fits);
      ProbeIs(Node(), v, now, fits);
      result := TrySchedulingTsk(t, now, fits, v, vs, m);
      if result {
        WithdrawTask(t, Nobody, Node());
        UnplacedIs(t);
        t.scheduled := false;
      }
    }

    /** The part of recv for a task that has cores: it is reserved for and started, or it fails. */
    method Admit(t: CloudTask, now: real, fits: bool, ghost n: Node, ghost tm: Timer)
      requires Linked(Nobody) && t in tasks && cores != [] && n == Node() && tm == Timer()
      modifies cores`current, allocs`mips, allocs`since, allocs`perf, allocs`core, `eventTime, `pending, t`started
      modifies world`active, world`inFly, tasks`allocations, tasks`failed
      modifies `finished, `outputs, `holding, `failures, `failed
      ensures Linked(Nobody)
      ensures fits ==> (Node(), Timer()) == RunCores(n.(holding := n.holding + {t.id}), tm, 0, now, Some(t.id))
      ensures !fits ==> (Node(), Timer()) == (FailAll(n, {t.id}), tm)
    {
      hide *;
      if fits {
        Reserve(t, n);
        StartEverywhere(t, now, Node(), tm);
      } else {
        NobodyIs(t);
        t.Fail(this, Nobody);
      }
    }

    lemma NobodyIs(t: CloudTask)
      ensures !Nobody.Is(t)
    {}

    /** tryToAllocate has reserved for task t. */
    method Reserve(t: CloudTask, ghost n: Node)
      requires Linked(Nobody) && t in tasks && n == Node()
      modifies `holding
      ensures Joined(Snapshot(), Nobody) && BackedBut(t) && Node() == n.(holding := n.holding + {t.id})
    {
      IdsTell(t);
      hide Joined, Snapshot, CoresOf, ListMap;
      holding := holding + {t.id};
    }

    lemma IdsTell(t: CloudTask)
      requires Linked(Nobody) && t in tasks
      ensures forall u :: u in tasks && u.id == t.id ==> u == t
    {}

    /** recv of a task: placed now, unless it was placed when it was dispatched; then started or failed. */
    method Recv(t: CloudTask, now: real, fitsProbe: bool, fits: bool, ghost v: Task, ghost vs: seq<Alloc>,
                ghost n: Node, ghost tm: Timer)
      requires Linked(Nobody) && t in tasks && cores != [] && n == Node() && tm == Timer() && v.id == t.id
      requires !t.scheduled ==>
          now < t.deadline && v.deadline == t.deadline && Unplaced(t) && Looks(t.allocations, vs) && Describes(v, t, vs)
      modifies cores`current, allocs`mips, allocs`since, allocs`perf, allocs`core, `eventTime, `pending, t`started,
        t`scheduled
      modifies world`active, world`inFly, tasks`allocations, tasks`failed
      modifies `finished, `outputs, `holding, `failures, `failed
      ensures Linked(Nobody) && (Node(), Timer()) == Receive(n, tm, v, now, old(t.scheduled), fitsProbe, fits)
    {
      hide *;
      ReceiveIs(n, tm, v, now, t.scheduled, fitsProbe, fits);
      if !t.scheduled {
        var ok := TrySchedulingTsk(t, now, fitsProbe, v, vs, TrySchedule(n, v, now, fitsProbe));
        if !ok {
          NobodyIs(t);
          t.Fail(this, Nobody);
          return;
        }
      }
      Admit(t, now, fits, Node(), tm);
    }
  }

  lemma AdmitsIs(c: Core, v: Alloc, now: real, tskrate: real, urgency: real)
    requires now < v.deadline && forall b :: b in c.active + c.inFly ==> now < b.deadline
    requires tskrate == Required(v, now) && urgency == Urgency(c, now)
    ensures var rate := if tskrate > urgency then tskrate else urgency;
      Admits(c, v, now) <==> rate * (Load(c) + 1) as real <= c.available
  {
    hide Urgency, Required, Load;
  }

  lemma EraseIs(s: seq<TaskAlloc>, a: TaskAlloc)
    ensures forall b :: b in Erase(s, a) <==> b in s && b != a
  {}

  lemma CutKeeps(s: seq<TaskAlloc>, i: nat)
    requires i < |s|
    ensures forall j | 0 <= j < i :: Cut(s, i)[j] == s[j]
  {}

  lemma CutDistinct(s: seq<TaskAlloc>, f: seq<TaskAlloc>, i: nat)
    requires i < |s| && Distinct(s + f)
    ensures Distinct(Cut(s, i) + f) && s[i] !in Cut(s, i) && s[i] !in f
  {
    assert forall j | 0 <= j < |s| - 1 :: Cut(s, i)[j] == (s + f)[if j < i then j else j + 1];
    assert forall j | 0 <= j < |f| :: f[j] == (s + f)[|s| + j];
    assert s[i] == (s + f)[i];
  }

  lemma ViewsCons(a: TaskAlloc, s: seq<TaskAlloc>)
    ensures Views([a] + s) == [a.View()] + Views(s)
  {}

  lemma OthersCons(a: TaskAlloc, s: seq<TaskAlloc>, t: CloudTask)
    ensures Others([a] + s, t) == (if a.task == t then [] else [a]) + Others(s, t)
  {
    assert ([a] + s)[1..] == s;
  }

  lemma {:induction false} OthersLess(s: seq<TaskAlloc>, a: TaskAlloc)
    ensures |Others(s, a.task)| <= |s| && (a in s ==> |Others(s, a.task)| < |s|)
  {
    if s != [] {
      OthersLess(s[1..], a);
    }
  }

  lemma {:induction false} OthersSame(s: seq<TaskAlloc>, t: CloudTask)
    requires forall a :: a in s ==> a.task != t
    ensures Others(s, t) == s
  {
    if s != [] {
      OthersSame(s[1..], t);
      assert s[0] in s;
    }
  }

  lemma OthersPrefix(s: seq<TaskAlloc>, t: CloudTask, c: nat)
    requires c <= |s| && forall a :: a in s[..c] ==> a.task != t
    ensures c <= |Others(s, t)| && Others(s, t)[..c] == s[..c]
  {
    assert s == s[..c] + s[c..];
    OthersAppend(s[..c], s[c..], t);
    OthersSame(s[..c], t);
  }

  lemma {:induction false} OthersAppend(s: seq<TaskAlloc>, r: seq<TaskAlloc>, t: CloudTask)
    ensures Others(s + r, t) == Others(s, t) + Others(r, t)
  {
    if s == [] {
      assert s + r == r;
    } else {
      assert (s + r)[1..] == s[1..] + r;
      OthersAppend(s[1..], r, t);
    }
  }

  lemma {:induction false} OthersKeepDistinct(s: seq<TaskAlloc>, t: CloudTask)
    requires Distinct(s)
    ensures Distinct(Others(s, t))
  {
    if s != [] {
      OthersKeepDistinct(s[1..], t);
      assert forall a :: a in s[1..] ==> a != s[0];
    }
  }

  lemma OthersDistinct(s: seq<TaskAlloc>, r: seq<TaskAlloc>, t: CloudTask)
    requires Distinct(s + r)
    ensures Distinct(Others(s, t) + Others(r, t))
  {
    OthersAppend(s, r, t);
    OthersKeepDistinct(s + r, t);
  }
}
