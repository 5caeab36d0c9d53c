/** The admission invariant of one core, and the rates that setComputingRate makes of it. */
module Admission {
  import opened Common
  import opened Arithmetic
  import opened Scheduling
  import opened AllocLists
  import opened WorkAccounting

  /**
   What surrounds a core: the time, the tasks of the provider, and those of them that are still
   travelling.  The simulation is calm if no task is ever placed before it arrives.
   */
  datatype Setting = Setting(now: real, book: map<nat, Task>, air: set<nat>, calm: bool)

  /** How many allocations of task t are on a list. */
  function Waiters(s: seq<Alloc>, t: nat): (n: nat)
    ensures n > 0 <==> exists a :: a in s && a.task == t
  {
    if s == [] then 0 else
    assert s == [s[0]] + s[1..];
    (if s[0].task == t then 1 else 0) + Waiters(s[1..], t)
  }

  /** How many allocations run, or will once task start is started. */
  function Due(c: Core, start: Option<nat>): nat {
    |c.active| + if start.Some? then Waiters(c.inFly, start.value) else 0
  }

  /** So many allocations, each as urgent as this one, fit on a core. */
  predicate Affordable(a: Alloc, load: nat, available: real, now: real) {
    now <= a.deadline && load as real * Left(a, now) <= available * (a.deadline - now)
  }

  /**
   The admission invariant: number of allocations times the largest required rate fits.  It speaks
   of what runs and of what is just being placed or started, not of what still travels.
   */
  predicate Fits(c: Core, now: real, start: Option<nat>) {
    && c.available >= 0.0
    && (forall a :: a in c.active ==> Affordable(a, Due(c, start), c.available, now))
    && (forall a :: a in c.inFly && start == Some(a.task) ==>
          now < a.deadline && Affordable(a, Due(c, start), c.available, now))
  }

  predicate Booked(c: Core, book: map<nat, Task>) {
    && (forall a :: a in c.active ==> a.task in book && a.deadline == book[a.task].deadline)
    && (forall a :: a in c.inFly ==> a.task in book && a.deadline == book[a.task].deadline)
    && (forall a :: a in c.inFly ==> a.perf == 0.0)
  }

  /** What is in flight belongs to travelling tasks or to the one at hand; what runs does not travel. */
  predicate Parted(c: Core, air: set<nat>, start: Option<nat>) {
    && (forall a :: a in c.active ==> a.task !in air)
    && (forall a :: a in c.inFly ==> a.task in air || start == Some(a.task))
  }

  /** As long as nothing travels a core is never given more than its available rate. */
  predicate Paced(c: Core, calm: bool) {
    calm ==> 0.0 <= c.current <= c.available
  }

  predicate CoreOk(c: Core, x: Setting, start: Option<nat>) {
    && Fits(c, x.now, start) && Booked(c, x.book) && Parted(c, x.air, start) && Paced(c, x.calm)
    && (x.calm ==> x.air == {}) && (start.Some? ==> start.value !in x.air)
  }

  // ---------- counting ----------

  lemma {:induction false} WaitersDrop(s: seq<Alloc>, out: set<nat>, t: nat)
    ensures Waiters(Drop(s, out), t) == if t in out then 0 else Waiters(s, t)
  {
    if s != [] {
      WaitersDrop(s[1..], out, t);
      if s[0].task !in out {
        assert ([s[0]] + Drop(s[1..], out))[1..] == Drop(s[1..], out);
      } else {
        assert [] + Drop(s[1..], out) == Drop(s[1..], out);
      }
    }
  }

  lemma {:induction false} WaitersStarting(s: seq<Alloc>, t: nat, now: real)
    ensures |Starting(s, t, now)| == Waiters(s, t)
  {
    if s != [] {
      WaitersStarting(s[1..], t, now);
    }
  }

  lemma {:induction false} WaitersAppend(s: seq<Alloc>, a: Alloc, t: nat)
    ensures Waiters(s + [a], t) == Waiters(s, t) + if a.task == t then 1 else 0
  {
    if s == [] {
      assert s + [a] == [a] && [a][1..] == [];
    } else {
      assert (s + [a])[1..] == s[1..] + [a];
      WaitersAppend(s[1..], a, t);
    }
  }

  lemma {:induction false} WaitersAtMost(s: seq<Alloc>, t: nat)
    ensures Waiters(s, t) <= |s|
  {
    if s != [] {
      WaitersAtMost(s[1..], t);
    }
  }

  // ---------- one allocation ----------

  lemma StillAffordable(a: Alloc, n: nat, b: Alloc, m: nat, available: real, now: real)
    requires Affordable(a, n, available, now) && m <= n && available >= 0.0
    requires b.deadline == a.deadline && Left(b, now) <= Max(Left(a, now), 0.0)
    ensures Affordable(b, m, available, now) && now <= b.deadline
  {
    ProductSign(available, a.deadline - now);
    Shrink(n as real, m as real, Left(a, now), Left(b, now), available * (a.deadline - now));
  }

  lemma FewerAffordable(a: Alloc, n: nat, m: nat, available: real, now: real)
    requires Affordable(a, n, available, now) && m <= n && available >= 0.0
    ensures Affordable(a, m, available, now)
  {
    StillAffordable(a, n, a, m, available, now);
  }

  /** Unfinished admitted work always has its deadline ahead. */
  lemma DeadlineAhead(a: Alloc, n: nat, available: real, now: real)
    requires Affordable(a, n, available, now) && n >= 1 && available >= 0.0 && Left(a, now) > 0.0
    ensures now < a.deadline && Left(a, now) <= available * (a.deadline - now)
  {
    ProductSign(available, a.deadline - now);
    Shrink(n as real, 1.0, Left(a, now), Left(a, now), available * (a.deadline - now));
  }

  /** Rate r finishes allocation a by its deadline. */
  predicate Covers(a: Alloc, r: real, now: real) {
    r > 0.0 && Left(a, now) <= r * (a.deadline - now)
  }

  // ---------- one core ----------

  /** What a core looks like once its work is up to date and completed work has left. */
  predicate UpToDate(c: Core, now: real) {
    forall a :: a in c.active ==> a.since == now && a.mips > 1.0 && now < a.deadline
  }

  /** The list of a core that is brought up to date. */
  lemma CaughtUpOne(c: Core, u: seq<Alloc>, b: Alloc, m: nat, x: Setting, start: Option<nat>)
    requires CoreOk(c, x, start) && CaughtUp(u, c.active, x.now) && b in u && m <= Due(c, start)
    ensures Affordable(b, m, c.available, x.now) && x.now <= b.deadline
    ensures b.mips > 1.0 ==> b.since == x.now && x.now < b.deadline
    ensures b.task in x.book && b.deadline == x.book[b.task].deadline && b.task !in x.air
  {
    hide Affordable, Left;
    var a := CaughtUpFrom(u, c.active, x.now, b);
    LeftNow(b, x.now);
    StillAffordable(a, Due(c, start), b, m, c.available, x.now);
    if b.mips > 1.0 {
      DeadlineAhead(a, Due(c, start), c.available, x.now);
    }
  }

  /** Bringing a core up to date and removing its completed work keeps it admitted. */
  lemma CaughtUpFits(c: Core, u: seq<Alloc>, x: Setting, start: Option<nat>)
    requires CoreOk(c, x, start) && CaughtUp(u, c.active, x.now)
    ensures forall b :: b in u ==>
      && x.now <= b.deadline && (b.mips > 1.0 ==> x.now < b.deadline)
      && b.task in x.book && b.deadline == x.book[b.task].deadline
    ensures var d := c.(active := Unfinished(u)); CoreOk(d, x, start) && UpToDate(d, x.now)
  {
    var d := c.(active := Unfinished(u));
    var m := Due(d, start);
    hide Affordable, Left, Waiters, CaughtUp;
    assert |u| == |c.active| by { LengthKept(u, c.active, x.now); }
    forall b | b in u
      ensures Affordable(b, m, c.available, x.now) && x.now <= b.deadline
      ensures b.mips > 1.0 ==> b.since == x.now && x.now < b.deadline
      ensures b.task in x.book && b.deadline == x.book[b.task].deadline && b.task !in x.air
    {
      CaughtUpOne(c, u, b, m, x, start);
    }
    forall b | b in d.inFly && start == Some(b.task)
      ensures Affordable(b, m, c.available, x.now)
    {
      FewerAffordable(b, Due(c, start), m, c.available, x.now);
    }
  }

  lemma LengthKept(u: seq<Alloc>, s: seq<Alloc>, now: real)
    requires CaughtUp(u, s, now)
    ensures |u| == |s|
  {}

  function SweptCore(c: Core, now: real): Core {
    c.(active := Unfinished(UpdateAll(c.active, now)))
  }

  // ---------- losing what travels ----------

  /** Core d is core c without some of what travels. */
  ghost predicate Shed(c: Core, d: Core, air: set<nat>) {
    && d == c.(inFly := d.inFly)
    && (forall a :: a in d.inFly ==> a in c.inFly)
    && (forall t :: t !in air ==> Waiters(d.inFly, t) == Waiters(c.inFly, t))
  }

  lemma ShedOk(c: Core, d: Core, x: Setting, start: Option<nat>)
    requires CoreOk(c, x, start) && Shed(c, d, x.air)
    ensures CoreOk(d, x, start)
  {
    hide Affordable, Waiters;
    assert Due(d, start) == Due(c, start);
  }

  lemma WithoutSheds(c: Core, out: set<nat>, air: set<nat>)
    requires out <= air && forall a :: a in c.active ==> a.task !in air
    ensures Shed(c, Without(c, out), air)
  {
    DropNone(c.active, out);
    forall t | t !in air
      ensures Waiters(Drop(c.inFly, out), t) == Waiters(c.inFly, t)
    {
      WaitersDrop(c.inFly, out, t);
    }
  }

  // ---------- setting the rates ----------

  /** The rate setComputingRate gives to each of the active allocations. */
  function Share(c: Core, now: real, dvfs: bool): real
    requires c.active != []
    requires dvfs ==> forall a :: a in c.active + c.inFly ==> now < a.deadline
  {
    Pace(c, now, dvfs) / |c.active| as real
  }

  /** On an admitted core every equal share covers every required rate, with DVFS and without. */
  lemma ShareSuffices(c: Core, now: real, dvfs: bool, a: Alloc)
    requires Fits(c, now, None) && UpToDate(c, now) && a in c.active
    requires dvfs ==> forall b :: b in c.active + c.inFly ==> now < b.deadline
    ensures Covers(a, Share(c, now, dvfs), now)
  {
    hide Affordable, Covers, Left, Required, Share;
    ShareIs(c, now, dvfs);
    if dvfs {
      UrgentShare(c, now, a);
    } else {
      EqualShareCovers(a, |c.active|, c.available, now);
    }
  }

  lemma ShareIs(c: Core, now: real, dvfs: bool)
    requires c.active != [] && (dvfs ==> forall a :: a in c.active + c.inFly ==> now < a.deadline)
    ensures Share(c, now, dvfs) == if dvfs then Urgency(c, now) else c.available / |c.active| as real
  {
    hide Urgency;
    if dvfs {
      ShareOfTotal(Urgency(c, now), |c.active| as real);
    }
  }

  lemma EqualShareCovers(a: Alloc, n: nat, available: real, now: real)
    requires Affordable(a, n, available, now) && a.since == now && a.mips > 1.0 && n > 0 && available >= 0.0
    ensures Covers(a, available / n as real, now)
  {
    UpdatedNow(a, now);
    EqualShare(n as real, n as real, available, a.deadline - now, a.mips);
  }

  lemma UrgentShare(c: Core, now: real, a: Alloc)
    requires Fits(c, now, None) && UpToDate(c, now) && a in c.active
    requires forall b :: b in c.active + c.inFly ==> now < b.deadline
    ensures Covers(a, Urgency(c, now), now)
  {
    hide Affordable, Covers, Left, Required;
    assert a in c.active + c.inFly;
    RequiredAvailable(a, |c.active|, c.available, now);
    RequiredCovers(a, Urgency(c, now), now);
  }

  lemma RequiredAvailable(a: Alloc, load: nat, available: real, now: real)
    requires Affordable(a, load, available, now) && load >= 1 && available >= 0.0
    requires a.since == now && a.mips > 0.0 && now < a.deadline
    ensures Required(a, now) <= available
  {
    UpdatedNow(a, now);
    DeadlineAhead(a, load, available, now);
    AtMostQuotient(a.mips, a.deadline - now, available);
  }

  lemma RequiredCovers(a: Alloc, r: real, now: real)
    requires a.since == now && a.mips > 0.0 && now < a.deadline && Required(a, now) <= r
    ensures Covers(a, r, now)
  {
    UpdatedNow(a, now);
    EnoughRate(a.mips, a.deadline - now, r);
  }

  /** A core right after setComputingRate: every allocation runs fast enough. */
  predicate JustSet(c: Core, x: Setting) {
    && CoreOk(c, x, None)
    && forall b :: b in c.active ==> b.since == x.now && b.mips > 1.0 && Covers(b, b.perf, x.now)
  }

  lemma RatedFrom(c: Core, now: real, dvfs: bool, b: Alloc) returns (a: Alloc)
    requires UpToDate(c, now) && (dvfs ==> forall a :: a in c.active + c.inFly ==> now < a.deadline)
    requires b in Rated(c, now, dvfs).active
    ensures a in c.active && b == a.(perf := Share(c, now, dvfs))
  {
    var i :| 0 <= i < |c.active| && Rated(c, now, dvfs).active[i] == b;
    a := c.active[i];
    assert a in c.active;
    UpdatedNow(a, now);
  }

  lemma SameWork(a: Alloc, b: Alloc, r: real, now: real)
    requires a.since == now && a.mips > 0.0 && Covers(a, r, now) && b == a.(perf := r)
    ensures Covers(b, r, now) && Left(a, now) == Left(b, now) == a.mips
  {}

  lemma RatedOne(c: Core, x: Setting, dvfs: bool, b: Alloc)
    requires CoreOk(c, x, None) && UpToDate(c, x.now)
    requires dvfs ==> forall a :: a in c.active + c.inFly ==> x.now < a.deadline
    requires b in Rated(c, x.now, dvfs).active
    ensures Affordable(b, |c.active|, c.available, x.now)
    ensures b.task in x.book && b.deadline == x.book[b.task].deadline && b.task !in x.air
    ensures b.since == x.now && b.mips > 1.0 && Covers(b, b.perf, x.now)
  {
    hide Affordable, Covers, Share, MaxRate, Left, Required, Updated;
    var a := RatedFrom(c, x.now, dvfs, b);
    ShareSuffices(c, x.now, dvfs, a);
    SameWork(a, b, Share(c, x.now, dvfs), x.now);
    StillAffordable(a, |c.active|, b, |c.active|, c.available, x.now);
  }

  lemma RatedJustSet(c: Core, x: Setting, dvfs: bool)
    requires CoreOk(c, x, None) && UpToDate(c, x.now)
    requires dvfs ==> forall a :: a in c.active + c.inFly ==> x.now < a.deadline
    ensures JustSet(Rated(c, x.now, dvfs), x)
  {
    hide Affordable, Covers, Pace, RateAll;
    var d := Rated(c, x.now, dvfs);
    assert d == c.(current := d.current, active := d.active) && |d.active| == |c.active|;
    forall b | b in d.active
      ensures Affordable(b, |c.active|, c.available, x.now)
      ensures b.task in x.book && b.deadline == x.book[b.task].deadline && b.task !in x.air
      ensures b.since == x.now && b.mips > 1.0 && Covers(b, b.perf, x.now)
    {
      RatedOne(c, x, dvfs, b);
    }
    if x.calm {
      NothingTravels(c, x);
      PaceAdmitted(c, x.now, dvfs);
    }
  }

  lemma NothingTravels(c: Core, x: Setting)
    requires CoreOk(c, x, None) && x.calm
    ensures c.inFly == []
  {
    HeadIn(c.inFly);
    hide Fits, Booked, Paced;
  }

  // ---------- the rate of the whole core ----------

  lemma PaceIs(c: Core, now: real)
    requires forall a :: a in c.active + c.inFly ==> now < a.deadline
    ensures Pace(c, now, true) == Urgency(c, now) * |c.active| as real
  {}

  /**
   The rate setComputingRate gives a core, exactly.  Without DVFS it is never more than what is
   available.  With DVFS it may be: only the most urgent rate is capped, not the rate times the
   number of active allocations.
   */
  lemma PaceWithin(c: Core, now: real)
    requires c.available >= 0.0 && forall a :: a in c.active + c.inFly ==> now < a.deadline
    ensures 0.0 <= Pace(c, now, false) <= c.available
    ensures Pace(c, now, true) >= 0.0
    ensures Pace(c, now, true) <= c.available <==>
      |c.active| <= 1 || c.available == 0.0 || AllWithin(c, now)
  {
    hide MaxRate, Pace, AllWithin;
    var s, n := c.active + c.inFly, |c.active| as real;
    PaceIs(c, now);
    PaceFull(c, now);
    CappedTimes(MaxRate(s, now), n, c.available);
    MaxWithin(c, now);
  }

  /** All that runs or waits on the core, times the number of active allocations, is within the rate. */
  predicate AllWithin(c: Core, now: real)
    requires forall a :: a in c.active + c.inFly ==> now < a.deadline
  {
    forall a :: a in c.active + c.inFly ==> Within(Required(a, now), |c.active|, c.available)
  }

  lemma MaxWithin(c: Core, now: real)
    requires c.available >= 0.0 && forall a :: a in c.active + c.inFly ==> now < a.deadline
    ensures Within(MaxRate(c.active + c.inFly, now), |c.active|, c.available) <==> AllWithin(c, now)
  {
    var s := c.active + c.inFly;
    var m := MaxRate(s, now);
    hide Required, MaxRate;
    forall a | a in s && Within(m, |c.active|, c.available)
      ensures Within(Required(a, now), |c.active|, c.available)
    {
      SlowerWithin(Required(a, now), m, |c.active|, c.available);
    }
    if m == 0.0 {
      IdleWithin(|c.active|, c.available);
    }
  }

  lemma SlowerWithin(q: real, m: real, n: nat, cap: real)
    requires q <= m && Within(m, n, cap)
    ensures Within(q, n, cap)
  {
    Scale(q, m, n as real);
    assert n as real * q == q * n as real && n as real * m == m * n as real;
  }

  lemma IdleWithin(n: nat, cap: real)
    requires cap >= 0.0
    ensures Within(0.0, n, cap)
  {}

  lemma PaceFull(c: Core, now: real)
    requires c.available >= 0.0
    ensures 0.0 <= Pace(c, now, false) <= c.available
  {}

  lemma CappedTimes(m: real, n: real, cap: real)
    requires m >= 0.0 && n >= 0.0 && cap >= 0.0
    ensures Min(m, cap) * n >= 0.0
    ensures n == 0.0 || n == 1.0 || cap == 0.0 ==> Min(m, cap) * n <= cap
    ensures n >= 2.0 && cap > 0.0 ==> (Min(m, cap) * n <= cap <==> m * n <= cap)
  {
    var u := Min(m, cap);
    ProductSign(u, n);
    if n >= 2.0 && cap > 0.0 && m > cap {
      TooFast(u, n, cap);
      TooFast(m, n, cap);
    }
  }

  lemma TooFast(m: real, n: real, cap: real)
    requires m >= cap > 0.0 && n >= 2.0
    ensures m * n > cap
  {
    Scale(2.0, n, m);
  }

  /** On an admitted core with nothing in flight the condition holds. */
  lemma PaceAdmitted(c: Core, now: real, dvfs: bool)
    requires Fits(c, now, None) && UpToDate(c, now) && c.inFly == []
    requires dvfs ==> forall a :: a in c.active + c.inFly ==> now < a.deadline
    ensures 0.0 <= Pace(c, now, dvfs) <= c.available
  {
    hide Affordable, Required, Within, Pace;
    assert c.active + c.inFly == c.active;
    forall a | a in c.active
      ensures Within(Required(a, now), |c.active|, c.available)
    {
      LeftNow(a, now);
      RequiredShare(a, |c.active|, c.available, now);
    }
    if dvfs {
      PaceWithin(c, now);
    } else {
      PaceFull(c, now);
    }
  }

  /** What an admitted allocation needs, times the number of allocations, fits the core. */
  lemma RequiredShare(a: Alloc, load: nat, available: real, now: real)
    requires Affordable(a, load, available, now) && Left(a, now) == a.mips && now < a.deadline && available >= 0.0
    ensures Within(Required(a, now), load, available)
  {
    var d := a.deadline - now;
    var q := Required(a, now);
    assert a.mips == d * q;
    assert load as real * (d * q) == d * (load as real * q) && available * d == d * available;
    Cancel(load as real * q, available, d);
  }

  // ---------- when hosting takes a part of the rate ----------

  /** The tasks that run on the core can do with this rate. */
  predicate Spare(c: Core, mips: real, now: real) {
    forall a :: a in c.active ==> Affordable(a, |c.active|, mips, now)
  }

  /**
   Once a core has another rate, the next setComputingRate pays all its tasks what they need exactly if
   they can do with that rate, shared out equally; with DVFS it is enough that each could alone.
   */
  lemma SparePays(c: Core, mips: real, now: real)
    requires UpToDate(c, now) && c.active != [] && mips > 0.0
    requires forall a :: a in c.active + c.inFly ==> now < a.deadline
    ensures var d := c.(available := mips);
      && (AllPaid(d, now, false) <==> Spare(c, mips, now))
      && (AllPaid(d, now, true) <==> forall a :: a in c.active ==> Required(a, now) <= mips)
  {
    hide Covers, Affordable, Share, Required;
    var d := c.(available := mips);
    ShareIs(d, now, false);
    ShareIs(d, now, true);
    forall a | a in c.active
      ensures Covers(a, Share(d, now, false), now) <==> Affordable(a, |c.active|, mips, now)
      ensures Covers(a, Share(d, now, true), now) <==> Required(a, now) <= mips
    {
      EqualSharePays(a, |c.active|, mips, now);
      assert a in d.active + d.inFly;
      UrgentSharePays(a, Urgency(d, now), mips, now);
    }
  }

  /** Every active allocation of the core gets the rate its deadline requires. */
  predicate AllPaid(c: Core, now: real, dvfs: bool)
    requires c.active != [] && (dvfs ==> forall a :: a in c.active + c.inFly ==> now < a.deadline)
  {
    forall a :: a in c.active ==> Covers(a, Share(c, now, dvfs), now)
  }

  lemma EqualSharePays(a: Alloc, n: nat, mips: real, now: real)
    requires a.since == now && a.mips > 1.0 && now < a.deadline && n > 0 && mips > 0.0
    ensures Covers(a, mips / n as real, now) <==> Affordable(a, n, mips, now)
  {
    UpdatedNow(a, now);
    hide Left;
    var r, d := mips / n as real, a.deadline - now;
    if Affordable(a, n, mips, now) {
      EqualShareCovers(a, n, mips, now);
    }
    if Covers(a, r, now) {
      Scale(a.mips, r * d, n as real);
      SharedOut(mips, n as real, d);
    }
  }

  lemma SharedOut(m: real, n: real, d: real)
    requires n > 0.0
    ensures n * (m / n * d) == m * d
  {
    var r := m / n;
    assert m == n * r;
  }

  lemma UrgentSharePays(a: Alloc, u: real, mips: real, now: real)
    requires a.since == now && a.mips > 1.0 && now < a.deadline && mips > 0.0
    requires u <= mips && (Required(a, now) <= u || u == mips)
    ensures Covers(a, u, now) <==> Required(a, now) <= mips
  {
    if Required(a, now) <= u {
      RequiredCovers(a, u, now);
    }
    if Covers(a, u, now) {
      CoversRequired(a, u, now);
    }
  }

  lemma CoversRequired(a: Alloc, r: real, now: real)
    requires a.since == now && a.mips > 0.0 && now < a.deadline && Covers(a, r, now)
    ensures Required(a, now) <= r
  {
    UpdatedNow(a, now);
    var d := a.deadline - now;
    assert r * d == d * r;
    AtMostQuotient(a.mips, d, r);
  }

  // ---------- the admission test ----------

  lemma StillAdmitted(b: Alloc, load: nat, more: nat, available: real, now: real, rate: real)
    requires Affordable(b, load, available, now) && Left(b, now) == b.mips && now < b.deadline
    requires load >= 1 && available >= 0.0 && Within(rate, more, available) && more >= 1
    requires Min(Required(b, now), available) <= rate
    ensures Affordable(b, more, available, now)
  {
    var d := b.deadline - now;
    if b.mips > 0.0 {
      DeadlineAhead(b, load, available, now);
      AtMostQuotient(b.mips, d, available);
    }
    AdmissionTest(b.mips, d, rate, more as real, available);
  }

  lemma NewlyAdmitted(a: Alloc, more: nat, available: real, now: real, rate: real)
    requires a.perf == 0.0 && now < a.deadline && Required(a, now) <= rate
    requires available >= 0.0 && Within(rate, more, available) && more >= 1
    ensures Affordable(a, more, available, now)
  {
    IdleWork(a, now);
    AdmissionTest(a.mips, a.deadline - now, rate, more as real, available);
  }

  lemma AdmitsKeeps(c: Core, a: Alloc, b: Alloc, load: nat, now: real)
    requires c.available >= 0.0 && b in c.active + c.inFly && Affordable(b, load, c.available, now) && load >= 1
    requires Left(b, now) == b.mips && now < a.deadline && forall b :: b in c.active + c.inFly ==> now < b.deadline
    requires Admits(c, a, now)
    ensures Affordable(b, Load(c) + 1, c.available, now)
  {
    hide Affordable, Left, Required, Within;
    StillAdmitted(b, load, Load(c) + 1, c.available, now, Max(Required(a, now), Urgency(c, now)));
  }

  /** The admission test keeps the admission invariant, whatever else is travelling to the core. */
  lemma TestAdmits(c: Core, a: Alloc, x: Setting)
    requires CoreOk(c, x, Some(a.task)) && UpToDate(c, x.now)
    requires forall b :: b in c.active + c.inFly ==> x.now < b.deadline
    requires a.perf == 0.0 && x.now < a.deadline && a.task in x.book && a.deadline == x.book[a.task].deadline
    requires Admits(c, a, x.now)
    ensures CoreOk(c.(inFly := c.inFly + [a]), x, Some(a.task))
  {
    hide Affordable, Left, Required, Within, MaxRate, Admits, Waiters;
    var now, start := x.now, Some(a.task);
    var d := c.(inFly := c.inFly + [a]);
    var m := Due(d, start);
    WaitersAppend(c.inFly, a, a.task);
    WaitersAtMost(c.inFly, a.task);
    assert m == Due(c, start) + 1 <= Load(c) + 1;
    forall b | b in c.active
      ensures Affordable(b, m, c.available, now)
    {
      LeftNow(b, now);
      AdmitsKeeps(c, a, b, Due(c, start), now);
      FewerAffordable(b, Load(c) + 1, m, c.available, now);
    }
    forall b | b in c.inFly && b.task == a.task
      ensures Affordable(b, m, c.available, now)
    {
      IdleWork(b, now);
      assert Waiters(c.inFly, a.task) > 0;
      AdmitsKeeps(c, a, b, Due(c, start), now);
      FewerAffordable(b, Load(c) + 1, m, c.available, now);
    }
    AdmitsNew(c, a, m, now);
  }

  lemma AdmitsNew(c: Core, a: Alloc, m: nat, now: real)
    requires c.available >= 0.0 && forall b :: b in c.active + c.inFly ==> now < b.deadline
    requires a.perf == 0.0 && now < a.deadline && Admits(c, a, now) && 1 <= m <= Load(c) + 1
    ensures Affordable(a, m, c.available, now)
  {
    hide Affordable, Left, Required, Within, MaxRate;
    NewlyAdmitted(a, Load(c) + 1, c.available, now, Max(Required(a, now), Urgency(c, now)));
    FewerAffordable(a, Load(c) + 1, m, c.available, now);
  }
}
