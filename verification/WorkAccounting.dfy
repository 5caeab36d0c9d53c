/** The work of one allocation under updates and changes of rate. */
module WorkAccounting {
  import opened Common
  import opened Arithmetic
  import opened Scheduling

  /** The work of a left at time t, if its rate does not change before. */
  function Left(a: Alloc, t: real): real {
    a.mips - Computed(a, t)
  }

  lemma LeftSplit(a: Alloc, now: real, t: real)
    ensures Left(a, t) == Left(a, now) - a.perf * (t - now)
  {
    calc {
      a.perf * (t - a.since);
      a.perf * ((t - now) + (now - a.since));
      a.perf * (t - now) + a.perf * (now - a.since);
    }
  }

  lemma LeftAt(a: Alloc, rate: real, now: real, t: real)
    requires a.perf == rate
    ensures Left(a, t) == Left(a, now) - rate * (t - now)
  {
    LeftSplit(a, now, t);
  }

  /** Bringing the accounting up to date leaves at least the work there was. */
  lemma UpdatedLeft(a: Alloc, now: real, t: real)
    ensures Left(Updated(a, now), t) >= Left(a, t)
  {
    UpdateAlloc(a, now);
    LeftAt(a, a.perf, now, t);
    LeftAt(Updated(a, now), a.perf, now, t);
    hide Left, Updated;
  }

  lemma NothingComputed(a: Alloc, now: real)
    requires a.since == now || a.perf == 0.0
    ensures Computed(a, now) == 0.0
  {
    if a.since == now {
      TimesZero(a.perf, now - a.since);
    }
  }

  lemma UpdateAlloc(a: Alloc, now: real)
    ensures var u := Updated(a, now);
      u.since == now && u.mips == Max(Left(a, now), 0.0) == Left(u, now)
      && u.task == a.task && u.deadline == a.deadline && u.perf == a.perf
  {
    NothingComputed(Updated(a, now), now);
    hide Computed;
  }

  lemma UpdatedNow(a: Alloc, now: real)
    requires a.since == now && a.mips > 0.0
    ensures Updated(a, now) == a && Left(a, now) == a.mips
  {
    NothingComputed(a, now);
    hide Computed;
  }

  lemma LeftNow(b: Alloc, now: real)
    ensures b.since == now ==> Left(b, now) == b.mips
  {
    if b.since == now {
      NothingComputed(b, now);
    }
    hide Computed;
  }

  lemma IdleWork(a: Alloc, now: real)
    requires a.perf == 0.0
    ensures Left(a, now) == a.mips == Left(a.(since := now), now)
  {
    NothingComputed(a, now);
    NothingComputed(a.(since := now), now);
    hide Computed;
  }

  /** b is allocation a with its work brought up to date. */
  predicate UpdateOf(b: Alloc, a: Alloc, now: real) {
    b.since == now && b.mips == Max(Left(a, now), 0.0) && b.task == a.task && b.deadline == a.deadline
  }

  predicate CaughtUp(u: seq<Alloc>, s: seq<Alloc>, now: real) {
    |u| == |s| && forall i | 0 <= i < |s| :: UpdateOf(u[i], s[i], now)
  }

  lemma CaughtUpFrom(u: seq<Alloc>, s: seq<Alloc>, now: real, b: Alloc) returns (a: Alloc)
    requires CaughtUp(u, s, now) && b in u
    ensures a in s && UpdateOf(b, a, now)
  {
    var i :| 0 <= i < |u| && u[i] == b;
    a := s[i];
  }

  lemma UpdateCatchesUp(s: seq<Alloc>, now: real)
    ensures CaughtUp(UpdateAll(s, now), s, now)
  {
    hide Left;
    forall i | 0 <= i < |s|
      ensures UpdateOf(UpdateAll(s, now)[i], s[i], now)
    {
      UpdateAlloc(s[i], now);
    }
  }

  lemma RateCatchesUp(s: seq<Alloc>, now: real, mips: real)
    ensures CaughtUp(RateAll(s, now, mips), s, now)
  {
    hide Left;
    forall i | 0 <= i < |s|
      ensures UpdateOf(RateAll(s, now, mips)[i], s[i], now)
    {
      UpdateAlloc(s[i], now);
    }
  }

  lemma UpdatedTwice(a: Alloc, now: real)
    ensures Updated(Updated(a, now), now) == Updated(a, now)
  {
    NothingComputed(Updated(a, now), now);
    hide Computed;
  }

  // ---------- sequences of updates ----------

  /** The accounting is brought up to date at some time, and the rate may change. */
  datatype Change = Change(time: real, rate: Option<real>)

  function RateAfter(perf: real, c: Change): real {
    if c.rate.Some? then c.rate.value else perf
  }

  function Apply(a: Alloc, c: Change): Alloc {
    if c.rate.Some? then WithRate(a, c.time, c.rate.value) else Updated(a, c.time)
  }

  function Play(a: Alloc, cs: seq<Change>): Alloc
    decreases |cs|
  {
    if cs == [] then a else Play(Apply(a, cs[0]), cs[1..])
  }

  /** Changes come in order of time and rates are not negative. */
  predicate Orderly(since: real, perf: real, cs: seq<Change>)
    decreases |cs|
  {
    && perf >= 0.0
    && (cs != [] ==> since <= cs[0].time && Orderly(cs[0].time, RateAfter(perf, cs[0]), cs[1..]))
  }

  /** Rate times interval, summed up to the last change. */
  function Effort(since: real, perf: real, cs: seq<Change>): real
    decreases |cs|
  {
    if cs == [] then 0.0 else
    perf * (cs[0].time - since) + Effort(cs[0].time, RateAfter(perf, cs[0]), cs[1..])
  }

  lemma {:induction false} EffortPositive(since: real, perf: real, cs: seq<Change>)
    requires Orderly(since, perf, cs)
    ensures Effort(since, perf, cs) >= 0.0
    decreases |cs|
  {
    if cs != [] {
      ProductSign(perf, cs[0].time - since);
      EffortPositive(cs[0].time, RateAfter(perf, cs[0]), cs[1..]);
    }
  }

  /** The work left is what there was less rate times time, and never less than nothing. */
  lemma {:induction false} WorkConserved(a: Alloc, cs: seq<Change>)
    requires a.mips >= 0.0 && Orderly(a.since, a.perf, cs)
    ensures Play(a, cs).mips == Max(a.mips - Effort(a.since, a.perf, cs), 0.0)
    decreases |cs|
  {
    if cs != [] {
      var rest, done := cs[1..], Computed(a, cs[0].time);
      assert Apply(a, cs[0]).mips == Max(a.mips - done, 0.0);
      assert Effort(a.since, a.perf, cs) == done + Effort(cs[0].time, RateAfter(a.perf, cs[0]), rest);
      hide Computed;
      WorkConserved(Apply(a, cs[0]), rest);
      EffortPositive(cs[0].time, RateAfter(a.perf, cs[0]), cs[1..]);
    }
  }

  /** Work left never rises. */
  lemma WorkNeverRises(a: Alloc, cs: seq<Change>, more: seq<Change>)
    requires a.mips >= 0.0 && Orderly(a.since, a.perf, cs + more)
    ensures Play(a, cs + more).mips <= Play(a, cs).mips
  {
    hide *;
    PlaySplit(a, cs, more);
    var b := Play(a, cs);
    WorkConserved(b, more);
    EffortPositive(b.since, b.perf, more);
    LessAtMost(b.mips, Effort(b.since, b.perf, more));
  }

  lemma LessAtMost(x: real, y: real)
    requires x >= 0.0 && y >= 0.0
    ensures Max(x - y, 0.0) <= x
  {}

  lemma {:induction false} PlaySplit(a: Alloc, cs: seq<Change>, more: seq<Change>)
    requires a.mips >= 0.0 && Orderly(a.since, a.perf, cs + more)
    ensures var b := Play(a, cs);
      Play(a, cs + more) == Play(b, more) && Orderly(b.since, b.perf, more) && b.mips >= 0.0
    decreases |cs|
  {
    if cs == [] {
      assert cs + more == more;
    } else {
      assert (cs + more)[0] == cs[0] && (cs + more)[1..] == cs[1..] + more;
      PlaySplit(Apply(a, cs[0]), cs[1..], more);
    }
  }

  lemma UpdateThenApply(a: Alloc, t: real, c: Change)
    requires a.mips >= 0.0 && a.perf >= 0.0 && t <= c.time
    ensures Apply(Updated(a, t), c) == Apply(a, c)
  {
    LeftSplit(a, t, c.time);
    UpdateAlloc(a, t);
    UpdateAlloc(a, c.time);
    UpdateAlloc(Updated(a, t), c.time);
    ProductSign(a.perf, c.time - t);
  }

  /**
   Extra updates, such as those a probe makes, change nothing: neither the allocation after any
   later change, nor the predicted completion time of unfinished work.
   */
  lemma ExtraUpdate(a: Alloc, xs: seq<Change>, t: real, ys: seq<Change>)
    requires a.mips >= 0.0 && Orderly(a.since, a.perf, xs + [Change(t, None)] + ys)
    ensures ys != [] ==> Play(a, xs + [Change(t, None)] + ys) == Play(a, xs + ys)
    ensures var b, u := Play(a, xs), Play(a, xs + [Change(t, None)]);
      u.mips > 0.0 && u.perf > 0.0 ==>
        u.perf == b.perf && u.since + ExecTime(u).value == b.since + ExecTime(b).value
  {
    var mid := [Change(t, None)];
    assert xs + mid + ys == xs + (mid + ys);
    PlaySplit(a, xs, mid + ys);
    var b := Play(a, xs);
    assert (mid + ys)[0] == mid[0] && (mid + ys)[1..] == ys;
    assert mid[1..] == [];
    PlaySplit(a, xs + mid, ys);
    PrefixOrderly(a.since, a.perf, xs + mid, ys);
    PlaySplit(a, xs, mid);
    var u := Play(a, xs + mid);
    assert u == Play(b, mid) == Updated(b, t);
    if ys != [] {
      SkipOrderly(a, xs, t, ys);
      PlaySplit(a, xs, ys);
      UpdateThenApply(b, t, ys[0]);
    }
    if u.mips > 0.0 && u.perf > 0.0 {
      SameCompletion(b, t);
    }
  }

  lemma SameCompletion(b: Alloc, t: real)
    requires Updated(b, t).mips > 0.0 && b.perf > 0.0
    ensures t + Updated(b, t).mips / b.perf == b.since + b.mips / b.perf
  {
    var q, r := b.mips / b.perf, Updated(b, t).mips / b.perf;
    assert b.perf * q == b.mips && b.perf * r == b.mips - b.perf * (t - b.since);
    assert b.perf * (q - r) == b.perf * (t - b.since);
    Cancel(q - r, t - b.since, b.perf);
    Cancel(t - b.since, q - r, b.perf);
  }

  lemma {:induction false} PrefixOrderly(since: real, perf: real, cs: seq<Change>, more: seq<Change>)
    requires Orderly(since, perf, cs + more)
    ensures Orderly(since, perf, cs)
    decreases |cs|
  {
    if cs != [] {
      assert (cs + more)[0] == cs[0] && (cs + more)[1..] == cs[1..] + more;
      PrefixOrderly(cs[0].time, RateAfter(perf, cs[0]), cs[1..], more);
    }
  }

  lemma {:induction false} SkipOrderly(a: Alloc, xs: seq<Change>, t: real, ys: seq<Change>)
    requires a.mips >= 0.0 && Orderly(a.since, a.perf, xs + [Change(t, None)] + ys) && ys != []
    ensures Orderly(a.since, a.perf, xs + ys) && t <= ys[0].time
    decreases |xs|
  {
    var all := xs + [Change(t, None)] + ys;
    if xs == [] {
      assert all[0] == Change(t, None) && all[1..] == ys;
      assert xs + ys == ys;
    } else {
      assert all[0] == xs[0] && all[1..] == xs[1..] + [Change(t, None)] + ys;
      assert (xs + ys)[0] == xs[0] && (xs + ys)[1..] == xs[1..] + ys;
      SkipOrderly(Apply(a, xs[0]), xs[1..], t, ys);
    }
  }
}
