/** Where an allocation is placed: on the first core with room for it, and nowhere only if no core has any. */
module FirstFit {
  import opened Common
  import opened Arithmetic
  import opened Scheduling
  import opened Admission
  import opened Shares

  /** Everything on the core, with a, could run at the rate that any one of them needs. */
  predicate RoomFor(c: Core, a: Alloc, now: real)
    requires now < a.deadline && Ahead(c, now)
  {
    var s := c.active + c.inFly + [a];
    forall b :: b in s ==> now < b.deadline && Need(b, now) * |s| as real <= c.available
  }

  lemma RoomForIs(c: Core, a: Alloc, now: real, n: nat)
    requires now < a.deadline && Ahead(c, now) && n == |c.active| + |c.inFly| + 1
    ensures RoomFor(c, a, now) <==>
      && Within(Need(a, now), n, c.available)
      && forall b :: b in c.active + c.inFly ==> Within(Need(b, now), n, c.available)
  {
    var s := c.active + c.inFly + [a];
    assert |s| == n && a in s;
    assert forall b :: b in s <==> b in c.active + c.inFly || b == a;
    hide Need;
  }

  lemma LargerWithin(x: real, y: real, n: nat, cap: real)
    ensures Within(Max(x, y), n, cap) <==> Within(x, n, cap) && Within(y, n, cap)
  {
    hide Within;
    var m := Max(x, y);
    if Within(m, n, cap) {
      SlowerWithin(x, m, n, cap);
      SlowerWithin(y, m, n, cap);
    }
  }

  /** Capping the highest rate at what is available makes no difference where more than one has to fit. */
  lemma CapWithin(m: real, n: nat, cap: real)
    requires n > 0 && cap > 0.0 && (n == 1 ==> m <= cap)
    ensures Within(Min(m, cap), n, cap) <==> Within(m, n, cap)
  {
    if m > cap {
      Overfull(cap, n);
      hide Within;
      if Within(m, n, cap) {
        SlowerWithin(cap, m, n, cap);
      }
    }
  }

  lemma Overfull(cap: real, n: nat)
    requires cap > 0.0 && n > 1
    ensures !Within(cap, n, cap)
  {
    ScaleStrict(1.0, n as real, cap);
  }

  lemma AllSlower(s: seq<Alloc>, now: real, n: nat, cap: real)
    requires cap >= 0.0 && forall a :: a in s ==> now < a.deadline
    ensures Within(MaxRate(s, now), n, cap) <==> forall b :: b in s ==> Within(Need(b, now), n, cap)
  {
    var m := MaxRate(s, now);
    forall b | b in s
      ensures Required(b, now) == Need(b, now)
    {}
    hide MaxRate, Required, Need, Within;
    forall b | b in s && Within(m, n, cap)
      ensures Within(Need(b, now), n, cap)
    {
      SlowerWithin(Need(b, now), m, n, cap);
    }
    if m == 0.0 {
      IdleWithin(n, cap);
    }
  }

  lemma NothingWithin(rate: real, n: nat)
    requires rate > 0.0 && n > 0
    ensures !Within(rate, n, 0.0)
  {
    ScaleStrict(0.0, n as real, rate);
  }

  /**
   The admission test, exactly: a core takes an allocation if and only if it has room for it; a core without
   any rate also takes one that has no work left.
   */
  lemma AdmitsExactly(c: Core, a: Alloc, now: real)
    requires now < a.deadline && Ahead(c, now) && c.available >= 0.0
    ensures Admits(c, a, now) <==> RoomFor(c, a, now) || (c.available == 0.0 && a.mips <= 0.0)
  {
    hide *;
    var s, n, cap := c.active + c.inFly, |c.active| + |c.inFly| + 1, c.available;
    AheadIs(c, now);
    var m, q := MaxRate(s, now), Need(a, now);
    NeedIs(a, now);
    UrgencyIs(c, now, m);
    AdmitsIs(c, a, now, q, Min(m, cap));
    LargerWithin(q, Min(m, cap), n, cap);
    RoomForIs(c, a, now, n);
    AllSlower(s, now, n, cap);
    MaxRateOfNone(s, now);
    if cap > 0.0 {
      CapWithin(m, n, cap);
    } else if a.mips > 0.0 {
      NeedPositive(a, now);
      NothingWithin(q, n);
    } else {
      NoNeed(a, now);
      IdleCap(q, m, n);
      CapIs(m, cap);
    }
  }

  lemma NoNeed(a: Alloc, now: real)
    requires now < a.deadline && a.mips <= 0.0
    ensures Need(a, now) <= 0.0
  {}

  /** Without any rate only what needs none is within it. */
  lemma IdleCap(q: real, m: real, n: nat)
    requires q <= 0.0 && m >= 0.0
    ensures Within(q, n, 0.0) && Within(Min(m, 0.0), n, 0.0)
  {
    IdleWithin(n, 0.0);
    SlowerWithin(q, 0.0, n, 0.0);
  }

  lemma CapIs(m: real, cap: real)
    requires m >= 0.0 && cap == 0.0
    ensures Min(m, cap) == Min(m, 0.0)
  {}

  lemma AheadIs(c: Core, now: real)
    requires Ahead(c, now)
    ensures forall a :: a in c.active + c.inFly ==> now < a.deadline
  {}

  lemma MaxRateOfNone(s: seq<Alloc>, now: real)
    requires forall a :: a in s ==> now < a.deadline
    ensures MaxRate(s, now) >= 0.0 && (s == [] ==> MaxRate(s, now) == 0.0)
  {}

  lemma NeedIs(a: Alloc, now: real)
    requires now < a.deadline
    ensures Need(a, now) == Required(a, now)
  {}

  lemma UrgencyIs(c: Core, now: real, m: real)
    requires Ahead(c, now)
    ensures forall a :: a in c.active + c.inFly ==> now < a.deadline
    ensures m == MaxRate(c.active + c.inFly, now) ==> Urgency(c, now) == Min(m, c.available)
  {
    hide MaxRate;
  }

  lemma AdmitsIs(c: Core, a: Alloc, now: real, q: real, u: real)
    requires now < a.deadline && forall a :: a in c.active + c.inFly ==> now < a.deadline
    requires q == Required(a, now) && u == Urgency(c, now)
    ensures Admits(c, a, now) <==> Within(Max(q, u), |c.active| + |c.inFly| + 1, c.available)
  {
    hide Urgency, Required, Within;
  }

  /** The provider once cores k, k + 1, ..., j - 1 have been asked for their most urgent rate. */
  function Asked(n: Node, now: real, k: nat, j: nat): (r: Node)
    requires k <= j <= |n.cores|
    ensures |r.cores| == |n.cores|
    decreases j - k
  {
    if k == j then n else Asked(Swept(n, k, now), now, k + 1, j)
  }

  /** The state in which core j answers: the cores before it, and itself, have been asked. */
  function Answers(n: Node, now: real, k: nat, j: nat): (c: Core)
    requires k <= j < |n.cores|
  {
    Asked(n, now, k, j + 1).cores[j]
  }

  /** Core j admits the allocation when it is asked. */
  predicate Takes(n: Node, a: Alloc, now: real, k: nat, j: nat)
    requires k <= j < |n.cores| && now < a.deadline
  {
    AskedAhead(n, now, k, j);
    Admits(Answers(n, now, k, j), a, now)
  }

  lemma {:induction false} AskedAhead(n: Node, now: real, k: nat, j: nat)
    requires k <= j < |n.cores|
    ensures Ahead(Answers(n, now, k, j), now)
    decreases j - k
  {
    hide Swept;
    if k < j {
      AskedAhead(Swept(n, k, now), now, k + 1, j);
    } else {
      assert Asked(n, now, k, k + 1) == Swept(n, k, now);
    }
  }

  /** Core j is the first from k on that admits the allocation. */
  predicate FirstTaker(n: Node, a: Alloc, now: real, k: nat, j: nat)
    requires k <= j < |n.cores| && now < a.deadline
  {
    Takes(n, a, now, k, j) && forall i | k <= i < j :: !Takes(n, a, now, k, i)
  }

  lemma TakesNext(n: Node, a: Alloc, now: real, k: nat, j: nat)
    requires k < j < |n.cores| && now < a.deadline
    ensures Takes(n, a, now, k, j) == Takes(Swept(n, k, now), a, now, k + 1, j)
  {
    hide Swept, Admits;
  }

  lemma TakesHere(n: Node, a: Alloc, now: real, k: nat)
    requires k < |n.cores| && now < a.deadline
    ensures Takes(n, a, now, k, k) == Admits(Swept(n, k, now).cores[k], a, now)
    ensures Asked(n, now, k, k + 1) == Swept(n, k, now)
  {
    AskedOne(n, now, k);
    hide Swept, Admits, Asked;
  }

  lemma AskedOne(n: Node, now: real, k: nat)
    requires k < |n.cores|
    ensures Asked(n, now, k, k + 1) == Swept(n, k, now)
  {
    assert forall m: Node :: k + 1 <= |m.cores| ==> Asked(m, now, k + 1, k + 1) == m;
  }

  /**
   The loop over the cores puts the allocation in flight on the first core that admits it, after it has
   asked that core and those before it and nothing else; and it fails only if no core admits it.
   */
  lemma {:induction false} PlacedFirstFit(n: Node, a: Alloc, now: real, k: nat)
    requires k <= |n.cores| && now < a.deadline
    ensures var (r, ok) := PlaceFrom(n, a, now, k);
      if ok then exists j | k <= j < |n.cores| ::
        FirstTaker(n, a, now, k, j) && r == Assign(Asked(n, now, k, j + 1), j, a)
      else r == Asked(n, now, k, |n.cores|) && forall j | k <= j < |n.cores| :: !Takes(n, a, now, k, j)
    decreases |n.cores| - k
  {
    hide PlaceFrom, Swept, Admits, Assign, Takes;
    PlaceFromIs(n, a, now, k);
    if k < |n.cores| {
      var n1 := Swept(n, k, now);
      TakesHere(n, a, now, k);
      if Admits(n1.cores[k], a, now) {
        assert FirstTaker(n, a, now, k, k);
      } else {
        PlacedFirstFit(n1, a, now, k + 1);
        forall j | k < j < |n.cores|
          ensures Takes(n, a, now, k, j) == Takes(n1, a, now, k + 1, j)
        {
          TakesNext(n, a, now, k, j);
        }
        var (r, ok) := PlaceFrom(n1, a, now, k + 1);
        if ok {
          var j :| k + 1 <= j < |n.cores| && FirstTaker(n1, a, now, k + 1, j)
            && r == Assign(Asked(n1, now, k + 1, j + 1), j, a);
          assert FirstTaker(n, a, now, k, j);
        }
      }
    }
  }

  // ---------- all allocations of a task ----------

  /** The provider once the first i allocations of the task have been placed, if they could be. */
  function PlacedUpTo(n: Node, t: Task, now: real, i: nat): (r: Node)
    requires i <= |t.loads| && now < t.deadline
    ensures |r.cores| == |n.cores|
  {
    if i == 0 then n else PlaceFrom(PlacedUpTo(n, t, now, i - 1), Fresh(t, i - 1), now, 0).0
  }

  /** Some core admits allocation i of the task, those before it having been placed. */
  predicate FindsCore(n: Node, t: Task, now: real, i: nat)
    requires i < |t.loads| && now < t.deadline
  {
    var a := Alloc(t.id, i, t.deadline, t.loads[i], 0.0, 0.0);
    exists j | 0 <= j < |n.cores| :: Takes(PlacedUpTo(n, t, now, i), a, now, 0, j)
  }

  lemma FindsCoreIs(n: Node, t: Task, now: real, i: nat)
    requires i < |t.loads| && now < t.deadline
    ensures FindsCore(n, t, now, i) <==> PlaceFrom(PlacedUpTo(n, t, now, i), Fresh(t, i), now, 0).1
    ensures PlacedUpTo(n, t, now, i + 1) == PlaceFrom(PlacedUpTo(n, t, now, i), Fresh(t, i), now, 0).0
  {
    PlacedFirstFit(PlacedUpTo(n, t, now, i), Fresh(t, i), now, 0);
    hide PlaceFrom, Takes;
  }

  lemma {:induction false} PlacesFrom(n: Node, t: Task, now: real, i: nat)
    requires i <= |t.loads| && now < t.deadline
    ensures var (r, ok) := PlaceAllocs(PlacedUpTo(n, t, now, i), t, now, i);
      && (ok <==> forall k | i <= k < |t.loads| :: FindsCore(n, t, now, k))
      && (ok ==> r == PlacedUpTo(n, t, now, |t.loads|))
    decreases |t.loads| - i
  {
    hide PlaceFrom, PlaceAllocs, PlacedUpTo, FindsCore;
    var m := PlacedUpTo(n, t, now, i);
    if i == |t.loads| {
      PlaceAllocsEnd(m, t, now);
    } else {
      PlaceAllocsNext(m, t, now, i);
      FindsCoreIs(n, t, now, i);
      if FindsCore(n, t, now, i) {
        PlacesFrom(n, t, now, i + 1);
      }
    }
  }

  /**
   A task is placed, and passes a test, exactly if its memory and storage fit and each of its allocations
   in turn finds a core; each is then on the first core that admits it.
   */
  lemma PlacedEach(n: Node, t: Task, now: real, fits: bool)
    requires now < t.deadline
    ensures var placeable := fits && forall i | 0 <= i < |t.loads| :: FindsCore(n, t, now, i);
      && (TrySchedule(n, t, now, fits).1 <==> placeable) && (Probe(n, t, now, fits).1 <==> placeable)
      && (placeable ==> TrySchedule(n, t, now, fits).0 == PlacedUpTo(n, t, now, |t.loads|))
  {
    PlacesFrom(n, t, now, 0);
    assert PlacedUpTo(n, t, now, 0) == n;
    ProbeIs(n, t, now, fits);
    hide PlaceAllocs, PlacedUpTo, FindsCore;
  }
}
