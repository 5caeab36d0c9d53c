/**
 Why the loops of removeCompleted and getMostUrgentTaskRate may take one allocation at a time, and
 start again from the beginning after each failure: every turn leaves the outcome of the whole unchanged.
 */
module RestartLoops {
  import opened Common
  import opened Scheduling
  import opened AllocLists

  lemma DropHead(a: Alloc, s: seq<Alloc>, out: set<nat>)
    ensures Drop([a] + s, out) == (if a.task in out then [] else [a]) + Drop(s, out)
  {
    assert ([a] + s)[1..] == s;
  }

  lemma StartingHead(a: Alloc, s: seq<Alloc>, t: nat, now: real)
    ensures Starting([a] + s, t, now) == (if a.task == t then [a.(since := now)] else []) + Starting(s, t, now)
  {
    assert ([a] + s)[1..] == s;
  }

  lemma UnfinishedHead(a: Alloc, s: seq<Alloc>)
    ensures Unfinished([a] + s) == (if a.mips <= 1.0 then [] else [a]) + Unfinished(s)
  {
    assert ([a] + s)[1..] == s;
  }

  lemma {:induction false} DropDrop(s: seq<Alloc>, x: set<nat>, y: set<nat>)
    ensures Drop(Drop(s, x), y) == Drop(s, x + y)
  {
    if s != [] {
      DropDrop(s[1..], x, y);
      hide Drop;
      assert s == [s[0]] + s[1..];
      DropHead(s[0], s[1..], x);
      DropHead(s[0], s[1..], x + y);
      DropHead(s[0], Drop(s[1..], x), y);
      assert [] + Drop(s[1..], x) == Drop(s[1..], x);
    }
  }

  /** Tasks may fail one after the other. */
  lemma FailTwice(n: Node, x: set<nat>, y: set<nat>)
    requires x !! y
    ensures FailAll(FailAll(n, x), y) == FailAll(n, x + y)
  {
    var r, q := FailAll(FailAll(n, x), y), FailAll(n, x + y);
    forall i | 0 <= i < |n.cores|
      ensures r.cores[i] == q.cores[i]
    {
      DropDrop(n.cores[i].active, x, y);
      DropDrop(n.cores[i].inFly, x, y);
    }
    assert r.cores == q.cores;
    assert |x + y| == |x| + |y|;
    assert n.failed + x + y == n.failed + (x + y);
    assert n.holding - x - y == n.holding - (x + y);
  }

  /** A turn of removeCompleted that fails a task. */
  lemma PurgeFailOne(n: Node, k: nat, now: real, t: nat)
    requires k < |n.cores| && t in Expired(n.cores[k].active, now)
    ensures Purge(FailAll(n, {t}), k, now) == Purge(n, k, now)
  {
    var s := n.cores[k].active;
    var x, y := Expired(s, now), Expired(Drop(s, {t}), now);
    assert y == x - {t};
    FailTwice(n, {t}, y);
    assert {t} + y == x;
    assert FailAll(n, {t}).cores[k].active == Drop(s, {t});
    PurgeIs(n, k, now);
    PurgeIs(FailAll(n, {t}), k, now);
  }

  lemma {:induction false} CutUnfinished(s: seq<Alloc>, i: nat, out: set<nat>)
    requires i < |s| && s[i].mips <= 1.0
    ensures Unfinished(Drop(Cut(s, i), out)) == Unfinished(Drop(s, out))
  {
    hide Drop, Unfinished;
    var a, r := s[0], s[1..];
    assert s == [a] + r;
    LiveHead(a, r, out);
    if i == 0 {
      assert Cut(s, 0) == r;
      assert [] + Unfinished(Drop(r, out)) == Unfinished(Drop(r, out));
    } else {
      assert Cut(s, i) == [a] + Cut(r, i - 1);
      CutUnfinished(r, i - 1, out);
      LiveHead(a, Cut(r, i - 1), out);
    }
  }

  lemma LiveHead(a: Alloc, s: seq<Alloc>, out: set<nat>)
    ensures Unfinished(Drop([a] + s, out))
      == (if a.task in out || a.mips <= 1.0 then [] else [a]) + Unfinished(Drop(s, out))
  {
    hide Drop, Unfinished;
    DropHead(a, s, out);
    if a.task in out {
      assert [] + Drop(s, out) == Drop(s, out);
    } else {
      UnfinishedHead(a, Drop(s, out));
    }
    assert [] + Unfinished(Drop(s, out)) == Unfinished(Drop(s, out));
  }

  /** A turn of removeCompleted that takes off a completed allocation. */
  function CompleteOne(n: Node, k: nat, i: nat, now: real): (r: Node)
    requires k < |n.cores| && i < |n.cores[k].active|
    ensures |r.cores| == |n.cores|
  {
    var t, m := n.cores[k].active[i].task, WithActive(n, k, Cut(n.cores[k].active, i));
    if Absent(m.cores, t) then Finish(m, {t}, now) else m
  }

  lemma PurgeCompleteOne(n: Node, k: nat, i: nat, now: real)
    requires k < |n.cores| && i < |n.cores[k].active| && n.cores[k].active[i].mips <= 1.0
    ensures Purge(CompleteOne(n, k, i, now), k, now) == Purge(n, k, now)
  {
    var s := n.cores[k].active;
    var c, t, n2 := Cut(s, i), s[i].task, CompleteOne(n, k, i, now);
    var x := Expired(s, now);
    var m := RetiredCores(n, k, x);
    SameRetired(n, k, i, x, now);
    RetiredIs(n, k, now);
    RetiredIs(n2, k, now);
    CutExpired(s, i, now);
    CompletedOne(n, k, i, now);
    hide *;
    var n1 := WithActive(n, k, c);
    if Absent(n1.cores, t) {
      LastOne(n, k, i, now);
      FinishTwice(n, x, m, t, Completed(Drop(c, x), m), now);
      FinishedThen(n, k, c, x, m, t, Completed(Drop(c, x), m), now);
    } else {
      NotLast(n, k, i, now);
      FailElsewhere(n, n1, x, m);
    }
  }

  lemma CompletedOne(n: Node, k: nat, i: nat, now: real)
    requires k < |n.cores| && i < |n.cores[k].active|
    ensures var c, t, r := Cut(n.cores[k].active, i), n.cores[k].active[i].task, CompleteOne(n, k, i, now);
      && r.cores[k].active == c && WithActive(n, k, c) == n.(cores := WithActive(n, k, c).cores)
      && r == if Absent(WithActive(n, k, c).cores, t) then Finish(WithActive(n, k, c), {t}, now)
        else WithActive(n, k, c)
  {
    hide Absent, Cut;
  }

  lemma FailElsewhere(n: Node, n1: Node, x: set<nat>, m: seq<Core>)
    requires n1 == n.(cores := n1.cores)
    ensures FailAll(n1, x).(cores := m) == FailAll(n, x).(cores := m)
  {}

  lemma CutExpired(s: seq<Alloc>, i: nat, now: real)
    requires i < |s| && s[i].mips <= 1.0
    ensures Expired(Cut(s, i), now) == Expired(s, now)
  {}

  /** The cores that removeCompleted leaves. */
  function RetiredCores(n: Node, k: nat, x: set<nat>): (r: seq<Core>)
    requires k < |n.cores|
    ensures |r| == |n.cores|
    ensures forall j | 0 <= j < |r| :: r[j].inFly == Drop(n.cores[j].inFly, x)
    ensures forall j | 0 <= j < |r| && j != k :: r[j].active == Drop(n.cores[j].active, x)
    ensures r[k].active == Unfinished(Drop(n.cores[k].active, x))
  {
    WithActive(FailAll(n, x), k, Unfinished(Drop(n.cores[k].active, x))).cores
  }

  lemma RetiredIs(n: Node, k: nat, now: real)
    requires k < |n.cores|
    ensures var s := n.cores[k].active;
      var x := Expired(s, now);
      var m := RetiredCores(n, k, x);
      Purge(n, k, now) == Finish(FailAll(n, x).(cores := m), Completed(Drop(s, x), m), now)
  {}

  lemma SameRetired(n: Node, k: nat, i: nat, x: set<nat>, now: real)
    requires k < |n.cores| && i < |n.cores[k].active| && n.cores[k].active[i].mips <= 1.0
    ensures RetiredCores(CompleteOne(n, k, i, now), k, x) == RetiredCores(n, k, x)
  {
    CutUnfinished(n.cores[k].active, i, x);
    hide Drop, Unfinished, Cut, Absent;
    var r, q := RetiredCores(CompleteOne(n, k, i, now), k, x), RetiredCores(n, k, x);
    forall j | 0 <= j < |n.cores|
      ensures r[j] == q[j]
    {}
  }

  /** The task's last allocation. */
  lemma LastOne(n: Node, k: nat, i: nat, now: real)
    requires k < |n.cores| && i < |n.cores[k].active| && n.cores[k].active[i].mips <= 1.0
    requires Absent(WithActive(n, k, Cut(n.cores[k].active, i)).cores, n.cores[k].active[i].task)
    ensures var s, t := n.cores[k].active, n.cores[k].active[i].task;
      var x := Expired(s, now);
      var m := RetiredCores(n, k, x);
      && t !in x && t !in Completed(Drop(Cut(s, i), x), m)
      && Completed(Drop(s, x), m) == Completed(Drop(Cut(s, i), x), m) + {t}
  {
    var s, t := n.cores[k].active, n.cores[k].active[i].task;
    var x := Expired(s, now);
    var c, m := Cut(s, i), RetiredCores(n, k, x);
    var n1 := WithActive(n, k, c).cores;
    assert n1[k] in n1;
    assert forall a :: a in c ==> a.task != t;
    forall j | 0 <= j < |m|
      ensures !OnCore(m[j], t)
    {
      assert n1[j] in n1;
    }
    assert Absent(m, t);
    LastCompleted(s, c, i, x, m, t);
  }

  lemma LastCompleted(s: seq<Alloc>, c: seq<Alloc>, i: nat, x: set<nat>, m: seq<Core>, t: nat)
    requires i < |s| && c == Cut(s, i) && t == s[i].task && s[i].mips <= 1.0 && Absent(m, t)
    requires t !in x && forall a :: a in c ==> a.task != t
    ensures t !in Completed(Drop(c, x), m) && Completed(Drop(s, x), m) == Completed(Drop(c, x), m) + {t}
  {
    hide Absent;
    assert s[i] in Drop(s, x);
  }

  /** The task has other allocations: it will be finished later, or fail, or stay. */
  lemma NotLast(n: Node, k: nat, i: nat, now: real)
    requires k < |n.cores| && i < |n.cores[k].active| && n.cores[k].active[i].mips <= 1.0
    requires !Absent(WithActive(n, k, Cut(n.cores[k].active, i)).cores, n.cores[k].active[i].task)
    ensures var s := n.cores[k].active;
      var x := Expired(s, now);
      var m := RetiredCores(n, k, x);
      Completed(Drop(s, x), m) == Completed(Drop(Cut(s, i), x), m)
  {
    var s, t := n.cores[k].active, n.cores[k].active[i].task;
    var x := Expired(s, now);
    var c, m := Cut(s, i), RetiredCores(n, k, x);
    SameRetired(n, k, i, x, now);
    if t !in x && Absent(m, t) {
      LaterOne(n, k, c, x, t, m);
    }
    SameCompletions(s, c, i, x, m, t);
  }

  lemma LaterOne(n: Node, k: nat, c: seq<Alloc>, x: set<nat>, t: nat, m: seq<Core>)
    requires k < |n.cores| && t !in x && m == RetiredCores(WithActive(n, k, c), k, x)
    requires !Absent(WithActive(n, k, c).cores, t) && Absent(m, t)
    ensures t in Completed(Drop(c, x), m)
  {
    var n1 := WithActive(n, k, c).cores;
    var j :| 0 <= j < |n1| && OnCore(n1[j], t);
    assert m[j] in m;
    StillOn(n, k, c, x, t, j, m);
    var a :| a in c && a.task == t && a.mips <= 1.0;
    assert a in Drop(c, x);
  }

  lemma SameCompletions(s: seq<Alloc>, c: seq<Alloc>, i: nat, x: set<nat>, m: seq<Core>, t: nat)
    requires i < |s| && c == Cut(s, i) && t == s[i].task
    requires t !in x && Absent(m, t) ==> t in Completed(Drop(c, x), m)
    ensures Completed(Drop(s, x), m) == Completed(Drop(c, x), m)
  {
    hide Absent;
    forall u
      ensures u in Completed(Drop(s, x), m) <==> u in Completed(Drop(c, x), m)
    {
      if u in Completed(Drop(s, x), m) {
        var a :| a in Drop(s, x) && a.mips <= 1.0 && Absent(m, a.task) && u == a.task;
        assert a == s[i] || a in c;
      }
    }
  }

  /** A task that does not fail stays where it is, unless what it has on core k is completed. */
  lemma StillOn(n: Node, k: nat, c: seq<Alloc>, x: set<nat>, t: nat, j: nat, m: seq<Core>)
    requires k < |n.cores| && j < |n.cores| && t !in x && m == RetiredCores(WithActive(n, k, c), k, x)
    requires OnCore(WithActive(n, k, c).cores[j], t) && !OnCore(m[j], t)
    ensures exists a :: a in c && a.task == t && a.mips <= 1.0
  {
    var e := WithActive(n, k, c).cores[j];
    assert forall a :: a in e.inFly && a.task == t ==> a in m[j].inFly;
    var a :| a in e.active && a.task == t;
    assert a in Drop(e.active, x);
  }

  lemma FinishTwice(n: Node, x: set<nat>, m: seq<Core>, t: nat, done: set<nat>, now: real)
    requires t !in done
    ensures var f := FailAll(n, x).(cores := m);
      Finish(f, done + {t}, now) == Finish(Finish(f, {t}, now), done, now)
  {}

  lemma FinishedThen(n: Node, k: nat, c: seq<Alloc>, x: set<nat>, m: seq<Core>, t: nat, done: set<nat>, now: real)
    requires k < |n.cores| && |m| == |n.cores|
    ensures Finish(FailAll(Finish(WithActive(n, k, c), {t}, now), x).(cores := m), done, now)
      == Finish(Finish(FailAll(n, x).(cores := m), {t}, now), done, now)
  {}

  /** When nothing is completed and nothing is late, removeCompleted changes nothing. */
  lemma PurgeDone(n: Node, k: nat, now: real)
    requires k < |n.cores| && forall a :: a in n.cores[k].active ==> a.mips > 1.0 && now < a.deadline
    ensures Purge(n, k, now) == n
  {
    var s := n.cores[k].active;
    assert Expired(s, now) == {};
    FailNobody(n);
    AllLive(s);
    assert WithActive(n, k, s).cores == n.cores;
    assert Completed(s, n.cores) == {};
    assert n.holding - {} == n.holding;
  }

  lemma {:induction false} AllLive(s: seq<Alloc>)
    requires forall a :: a in s ==> a.mips > 1.0
    ensures Unfinished(s) == s
  {
    if s != [] {
      assert s[0] in s;
      AllLive(s[1..]);
    }
  }

  // ---------- the in-fly list ----------

  /** The tasks that are late in flight on core k have failed. */
  function Grounded(n: Node, k: nat, now: real): (r: Node)
    requires k < |n.cores|
    ensures |r.cores| == |n.cores|
  {
    FailAll(n, Overdue(n.cores[k].inFly, now))
  }

  /** A turn of getMostUrgentTaskRate that fails a task in flight. */
  lemma SweepFailOne(n: Node, k: nat, now: real, t: nat)
    requires k < |n.cores| && t in Overdue(n.cores[k].inFly, now)
    ensures Grounded(FailAll(n, {t}), k, now) == Grounded(n, k, now)
  {
    var s := n.cores[k].inFly;
    var x, y := Overdue(s, now), Overdue(Drop(s, {t}), now);
    assert y == x - {t};
    FailTwice(n, {t}, y);
    assert {t} + y == x;
    assert FailAll(n, {t}).cores[k].inFly == Drop(s, {t});
  }

  lemma SweepDone(n: Node, k: nat, now: real)
    requires k < |n.cores| && forall a :: a in n.cores[k].inFly ==> now < a.deadline
    ensures Grounded(n, k, now) == n
  {
    assert Overdue(n.cores[k].inFly, now) == {};
    FailNobody(n);
  }

  // ---------- the running maximum ----------

  lemma {:induction false} MaxRateAppend(s: seq<Alloc>, r: seq<Alloc>, now: real)
    requires forall a :: a in s + r ==> now < a.deadline
    ensures (forall a :: a in s ==> now < a.deadline) && (forall a :: a in r ==> now < a.deadline)
    ensures MaxRate(s + r, now) == Max(MaxRate(s, now), MaxRate(r, now))
  {
    assert forall a :: a in s ==> a in s + r;
    assert forall a :: a in r ==> a in s + r;
    if s == [] {
      assert s + r == r;
    } else {
      assert (s + r)[1..] == s[1..] + r;
      assert forall a :: a in s[1..] + r ==> a in s + r;
      MaxRateAppend(s[1..], r, now);
    }
  }

  /** Every deadline is still ahead. */
  predicate Timely(s: seq<Alloc>, now: real) {
    forall a :: a in s ==> now < a.deadline
  }

  lemma MaxRateNext(s: seq<Alloc>, i: nat, now: real)
    requires Timely(s, now) && i < |s|
    ensures Timely(s[..i], now) && Timely(s[..i + 1], now) && now < s[i].deadline
    ensures MaxRate(s[..i + 1], now) == Max(MaxRate(s[..i], now), Required(s[i], now))
  {
    assert s[..i + 1] == s[..i] + [s[i]];
    assert forall a :: a in s[..i] + [s[i]] ==> a in s;
    MaxRateAppend(s[..i], [s[i]], now);
    assert [s[i]][1..] == [];
    var one := MaxRate([s[i]], now);
    assert one == Max(Required(s[i], now), MaxRate([], now));
  }

  // ---------- the running minimum ----------

  /** The sooner of two times, None standing for DBL_MAX. */
  function Sooner(a: Option<real>, b: Option<real>): Option<real> {
    if a.None? then b else if b.None? then a else Some(Min(a.value, b.value))
  }

  lemma {:induction false} SoonestAppend(s: seq<Alloc>, r: seq<Alloc>)
    ensures SoonestExec(s + r) == Sooner(SoonestExec(s), SoonestExec(r))
  {
    if s == [] {
      assert s + r == r;
    } else {
      assert (s + r)[1..] == s[1..] + r;
      SoonestAppend(s[1..], r);
      SoonestHead(s);
      SoonestHead(s + r);
    }
  }

  lemma SoonestHead(s: seq<Alloc>)
    requires s != []
    ensures SoonestExec(s) == Sooner(ExecTime(s[0]), SoonestExec(s[1..]))
  {}

  lemma SoonestNext(s: seq<Alloc>, i: nat)
    requires i < |s|
    ensures SoonestExec(s[..i + 1]) == Sooner(SoonestExec(s[..i]), ExecTime(s[i]))
  {
    assert s[..i + 1] == s[..i] + [s[i]];
    SoonestAppend(s[..i], [s[i]]);
    SoonestHead([s[i]]);
    assert [s[i]][1..] == [];
  }
}
