/** A placement policy tests a list of providers, reservations included, and chooses one that passed. */
module Surveys {
  import opened Common
  import opened Scheduling
  import opened Allocation
  import opened Reservations
  import opened Probing
  import opened Placement

  /** A provider: its cores and its reservations; owners tells which consumer is which task. */
  datatype Site = Site(node: Node, books: Books, owners: seq<Option<nat>>)

  predicate SiteOk(s: Site) {
    Sane(s.books) && |s.owners| == |s.books.consumers|
  }

  /** A task as a consumer, before anything is reserved for it. */
  predicate Asks(c: Consumer) {
    AllWellFormed(c.demands) && HoldsNothing(c.isTask, c.demands)
  }

  predicate Gone(owner: Option<nat>, gone: set<nat>) {
    owner.Some? && owner.value in gone
  }

  /** releaseAllocation for the tasks that finished or failed, from consumer k on. */
  function Settle(b: Books, owners: seq<Option<nat>>, gone: set<nat>, k: nat): (r: Books)
    requires Sane(b) && |owners| == |b.consumers| && k <= |owners|
    ensures Sane(r) && r.slots == b.slots && r.nominal == b.nominal && |r.consumers| == |b.consumers|
    decreases |owners| - k
  {
    if k == |owners| then b else
    Settle(if Gone(owners[k], gone) then Step(b, Return(k)) else b, owners, gone, k + 1)
  }

  /** An attempt, and its release if it succeeded: nothing has happened. */
  lemma AttemptUndone(slots: seq<Slot>, free: seq<real>, c: Consumer)
    requires |free| == |slots| && Asks(c)
    ensures var (f, c1, fits) := TryAllocate(slots, free, c);
      AllWellFormed(c1.demands) && (if fits then Release(f, c1) else (f, c1)) == (free, c)
  {
    AllocateRelease(slots, free, c);
    if !TryAllocate(slots, free, c).2 {
      AllOrNothing(slots, free, c);
    }
  }

  /** testSchedulingPossibility with all it does to cores and reservations. */
  function Test(s: Site, t: Task, c: Consumer, now: real): (r: (Site, Consumer, bool))
    requires SiteOk(s) && Asks(c) && now < t.deadline
    ensures SiteOk(r.0) && r.1 == c
  {
    AttemptUndone(s.books.slots, s.books.free, c);
    var (f, c1, fits) := TryAllocate(s.books.slots, s.books.free, c);
    var (f1, c2) := if fits then Release(f, c1) else (f, c1);
    var (n, ok) := Probe(s.node, t, now, fits);
    var b := Settle(s.books.(free := f1), s.owners, s.node.holding - n.holding, 0);
    ReleaseNothing(b.free, c2);
    var (f2, c3) := if ok then Release(b.free, c2) else (b.free, c2);
    (Site(n, b.(free := f2), s.owners), c3, ok)
  }

  lemma ReleaseNothing(free: seq<real>, c: Consumer)
    requires Asks(c)
    ensures Release(free, c) == (free, c)
  {
    forall k | 0 <= k < |free|
      ensures Held(c.isTask, c.demands, k) == 0.0
    {
      HoldingNothing(c.isTask, c.demands, k);
    }
    forall i | 0 <= i < |c.demands|
      ensures ClearedAll(c.isTask, c.demands)[i] == c.demands[i]
    {
      assert c.demands[i] in c.demands;
    }
    assert ClearedAll(c.isTask, c.demands) == c.demands;
    assert Release(free, c).0 == free;
  }

  /** Every provider of the list in turn; the task is handed from one to the next. */
  function TestAll(sites: seq<Site>, t: Task, c: Consumer, now: real): (r: (seq<Site>, Consumer, seq<bool>))
    requires (forall i | 0 <= i < |sites| :: SiteOk(sites[i])) && Asks(c) && now < t.deadline
    ensures |r.0| == |r.2| == |sites| && r.1 == c
  {
    if sites == [] then ([], c, []) else
    var (s, c1, ok) := Test(sites[0], t, c, now);
    var (rest, c2, oks) := TestAll(sites[1..], t, c1, now);
    ([s] + rest, c2, [ok] + oks)
  }

  lemma {:induction false} TestedAt(sites: seq<Site>, t: Task, c: Consumer, now: real, i: nat)
    requires (forall i | 0 <= i < |sites| :: SiteOk(sites[i])) && Asks(c) && now < t.deadline && i < |sites|
    ensures TestAll(sites, t, c, now).0[i] == Test(sites[i], t, c, now).0
    ensures TestAll(sites, t, c, now).2[i] == Test(sites[i], t, c, now).2
  {
    hide Test;
    if i > 0 {
      TestedAt(sites[1..], t, c, now, i - 1);
    }
  }

  // ---------- what a test leaves behind ----------

  /** Consumer d is consumer c, without its reservation if its task has ended. */
  predicate Kept(c: Consumer, d: Consumer, owner: Option<nat>, gone: set<nat>) {
    d == if Gone(owner, gone) then c.(demands := ClearedAll(c.isTask, c.demands)) else c
  }

  lemma {:induction false} Settled(b: Books, owners: seq<Option<nat>>, gone: set<nat>, k: nat)
    requires Balanced(b) && |owners| == |b.consumers| && k <= |owners|
    ensures var r := Settle(b, owners, gone, k);
      && Balanced(r)
      && (forall j | 0 <= j < k :: r.consumers[j] == b.consumers[j])
      && (forall j | k <= j < |owners| :: Kept(b.consumers[j], r.consumers[j], owners[j], gone))
      && (gone == {} ==> r == b)
    decreases |owners| - k
  {
    if k < |owners| {
      var b1 := if Gone(owners[k], gone) then Step(b, Return(k)) else b;
      if Gone(owners[k], gone) {
        StepBalanced(b, Return(k));
      }
      Settled(b1, owners, gone, k + 1);
    }
  }

  /**
   Site r is site s after a test for task t: the task is on no core; other work is as it was, unless it
   was done or due; the books balance; every reservation is as before but for tasks that ended; and if
   none did, so is every free value.
   */
  ghost predicate NoTrace(s: Site, r: Site, t: nat, now: real) {
    && Absent(r.node.cores, t) && Later(s.node, r.node, now) && Ended(s.node, r.node, now)
    && r.owners == s.owners && Balanced(r.books) && r.books.slots == s.books.slots && r.books.nominal == s.books.nominal
    && |r.books.consumers| == |s.books.consumers| == |s.owners|
    && (forall k | 0 <= k < |s.owners| ::
          Kept(s.books.consumers[k], r.books.consumers[k], s.owners[k], s.node.holding - r.node.holding))
    && (r.node.holding == s.node.holding ==> r.books == s.books)
  }

  lemma TestLeavesNoTrace(s: Site, t: Task, c: Consumer, now: real, book: map<nat, real>)
    requires SiteOk(s) && Balanced(s.books) && Asks(c) && now < t.deadline
    requires Dated(s.node, book) && Absent(s.node.cores, t.id)
    ensures var (r, _, ok) := Test(s, t, c, now);
      && NoTrace(s, r, t.id, now)
      && (ok <==> TryAllocate(s.books.slots, s.books.free, c).2 && Probe(s.node, t, now, true).1)
  {
    TestIs(s, t, c, now);
    var fits := TryAllocate(s.books.slots, s.books.free, c).2;
    ProbeLeavesNoTrace(s.node, t, now, fits, book);
    ProbeFails(s.node, t, now);
    var n := Probe(s.node, t, now, fits).0;
    var gone := s.node.holding - n.holding;
    Settled(s.books, s.owners, gone, 0);
    assert n.holding == s.node.holding ==> gone == {};
    hide Test, Probe, Settle, Later, Ended, Absent, Dated, TryAllocate, Kept, Balanced;
  }

  lemma ProbeFails(n: Node, t: Task, now: real)
    requires now < t.deadline
    ensures !Probe(n, t, now, false).1
  {}

  /** A test in short: the attempt and its release come to nothing. */
  lemma TestIs(s: Site, t: Task, c: Consumer, now: real)
    requires SiteOk(s) && Asks(c) && now < t.deadline
    ensures var (n, ok) := Probe(s.node, t, now, TryAllocate(s.books.slots, s.books.free, c).2);
      Test(s, t, c, now) == (Site(n, Settle(s.books, s.owners, s.node.holding - n.holding, 0), s.owners), c, ok)
  {
    hide Probe, Settle;
    AttemptUndone(s.books.slots, s.books.free, c);
    var (n, ok) := Probe(s.node, t, now, TryAllocate(s.books.slots, s.books.free, c).2);
    assert s.books.(free := s.books.free) == s.books;
    ReleaseNothing(Settle(s.books, s.owners, s.node.holding - n.holding, 0).free, c);
    hide Release, TryAllocate, Asks;
  }

  /**
   Testing any list of providers leaves no trace on any of them, and the task as it was; a provider
   passes exactly if it has room for the reservation and all allocations find a core.
   */
  lemma SurveyLeavesNoTrace(sites: seq<Site>, t: Task, c: Consumer, now: real, book: map<nat, real>)
    requires forall i | 0 <= i < |sites| ::
      SiteOk(sites[i]) && Balanced(sites[i].books) && Dated(sites[i].node, book) && Absent(sites[i].node.cores, t.id)
    requires Asks(c) && now < t.deadline
    ensures var (rs, c1, oks) := TestAll(sites, t, c, now);
      && c1 == c
      && forall i | 0 <= i < |sites| ::
           && NoTrace(sites[i], rs[i], t.id, now)
           && (oks[i] <==>
               TryAllocate(sites[i].books.slots, sites[i].books.free, c).2 && Probe(sites[i].node, t, now, true).1)
  {
    hide Test, NoTrace, TestAll, Balanced, Dated, Absent, Probe, TryAllocate;
    forall i | 0 <= i < |sites|
      ensures NoTrace(sites[i], TestAll(sites, t, c, now).0[i], t.id, now)
      ensures TestAll(sites, t, c, now).2[i] <==>
        TryAllocate(sites[i].books.slots, sites[i].books.free, c).2 && Probe(sites[i].node, t, now, true).1
    {
      TestedAt(sites, t, c, now, i);
      TestLeavesNoTrace(sites[i], t, c, now, book);
    }
  }

  /** Reservations that are returned only leave more free. */
  lemma {:induction false} SettleRaises(b: Books, owners: seq<Option<nat>>, gone: set<nat>, k: nat, j: nat)
    requires Balanced(b) && |owners| == |b.consumers| && k <= |owners| && j < |b.free|
    ensures Settle(b, owners, gone, k).free[j] >= b.free[j]
    decreases |owners| - k
  {
    if k < |owners| {
      var b1 := if Gone(owners[k], gone) then Step(b, Return(k)) else b;
      if Gone(owners[k], gone) {
        StepBalanced(b, Return(k));
        ReturnBalances(b.free, b.consumers[k], j);
      }
      SettleRaises(b1, owners, gone, k + 1, j);
    }
  }

  /**
   recv tries to reserve a second time for a task that it has just placed.  With at most one demand of
   each type this never fails, whichever tasks ended while it was being placed.
   */
  lemma PlacedIsReserved(s: Site, c: Consumer, gone: set<nat>)
    requires SiteOk(s) && Balanced(s.books) && Asks(c) && OnePerKind(c.isTask, c.demands)
    requires TryAllocate(s.books.slots, s.books.free, c).2
    ensures TryAllocate(s.books.slots, Settle(s.books, s.owners, gone, 0).free, c).2
  {
    var more := Settle(s.books, s.owners, gone, 0).free;
    hide TryAllocate, Balanced, Settle;
    forall j | 0 <= j < |more|
      ensures s.books.free[j] <= more[j]
    {
      SettleRaises(s.books, s.owners, gone, 0, j);
    }
    SuccessIsMonotone(s.books.slots, s.books.free, more, c);
  }

  // ---------- the policies ----------

  ghost predicate TestedUpTo(sites: seq<Site>, t: Task, c: Consumer, now: real, n: nat, after: seq<Site>,
                             oks: seq<bool>)
    requires (forall i | 0 <= i < |sites| :: SiteOk(sites[i])) && Asks(c) && now < t.deadline
  {
    && |after| == |oks| == n <= |sites|
    && forall i | 0 <= i < n :: after[i] == Test(sites[i], t, c, now).0 && oks[i] == Test(sites[i], t, c, now).2
  }

  lemma TestedNext(sites: seq<Site>, t: Task, c: Consumer, now: real, n: nat, after: seq<Site>, oks: seq<bool>)
    requires (forall i | 0 <= i < |sites| :: SiteOk(sites[i])) && Asks(c) && now < t.deadline
    requires TestedUpTo(sites, t, c, now, n, after, oks) && n < |sites|
    ensures var (s, _, ok) := Test(sites[n], t, c, now); TestedUpTo(sites, t, c, now, n + 1, after + [s], oks + [ok])
  {
    hide Test;
  }

  lemma TestedAll(sites: seq<Site>, t: Task, c: Consumer, now: real, after: seq<Site>, oks: seq<bool>)
    requires (forall i | 0 <= i < |sites| :: SiteOk(sites[i])) && Asks(c) && now < t.deadline
    requires TestedUpTo(sites, t, c, now, |sites|, after, oks)
    ensures TestAll(sites, t, c, now) == (after, c, oks)
  {
    hide Test, TestAll;
    var (rs, _, ps) := TestAll(sites, t, c, now);
    forall i | 0 <= i < |sites|
      ensures rs[i] == after[i] && ps[i] == oks[i]
    {
      TestedAt(sites, t, c, now, i);
    }
    assert rs == after && ps == oks;
  }

  /**
   BestScoreScheduler::scheduleTask: every provider is tested, those that pass are scored, and the first
   with the highest score is chosen.
   */
  method ScheduleBest(sites: seq<Site>, scores: seq<real>, t: Task, c: Consumer, now: real)
    returns (best: Option<nat>, after: seq<Site>, oks: seq<bool>)
    requires (forall i | 0 <= i < |sites| :: SiteOk(sites[i])) && |scores| == |sites| && Asks(c) && now < t.deadline
    ensures TestAll(sites, t, c, now) == (after, c, oks)
    ensures best.None? <==> NonePossible(oks)
    ensures best.Some? ==> IsBest(oks, scores, best.value)
  {
    after, oks := [], [];
    var scored: seq<Scoring> := [];
    ScoredNone([], []);
    hide *;
    NoneTested(sites, t, c, now);
    for i := 0 to |sites|
      invariant TestedUpTo(sites, t, c, now, i, after, oks) && |after| == |oks| == i
      invariant Scored(oks, scores[..i], i, scored)
    {
      var (s, _, ok) := Test(sites[i], t, c, now);
      TestedNext(sites, t, c, now, i, after, oks);
      ScoredMore(oks, scores, i, scored, ok);
      after, oks := after + [s], oks + [ok];
      if ok {
        scored := scored + [Scoring(i, scores[i])];
      }
    }
    TestedAll(sites, t, c, now, after, oks);
    assert scores[..|sites|] == scores;
    if scored == [] {
      ScoredEmpty(oks, scores);
      best := None;
    } else {
      var m := MaxElement(scored);
      ScoredBest(oks, scores, scored, m);
      best := Some(scored[m].provider);
    }
  }

  lemma NoneTested(sites: seq<Site>, t: Task, c: Consumer, now: real)
    requires (forall i | 0 <= i < |sites| :: SiteOk(sites[i])) && Asks(c) && now < t.deadline
    ensures TestedUpTo(sites, t, c, now, 0, [], [])
  {}

  /** One more provider has been tested. */
  lemma ScoredMore(oks: seq<bool>, scores: seq<real>, n: nat, scored: seq<Scoring>, ok: bool)
    requires |oks| == n < |scores| && Scored(oks, scores[..n], n, scored)
    ensures Scored(oks + [ok], scores[..n + 1], n + 1, if ok then scored + [Scoring(n, scores[n])] else scored)
  {
    ScoredWiden(oks, scores, n, scored, ok);
    ScoredNext(oks + [ok], scores[..n + 1], n, scored);
  }

  lemma ScoredWiden(oks: seq<bool>, scores: seq<real>, n: nat, scored: seq<Scoring>, ok: bool)
    requires |oks| == n < |scores| && Scored(oks, scores[..n], n, scored)
    ensures Scored(oks + [ok], scores[..n + 1], n, scored)
  {}

  /** The candidates among the first n providers: those that passed, with their scores. */
  ghost predicate Candidates(oks: seq<bool>, scores: seq<real>, ties: seq<real>, n: nat, cs: seq<Candidate>)
    requires |oks| == n <= |scores| && |ties| == |scores|
  {
    && (forall d :: d in cs ==>
        d.provider < n && oks[d.provider] && d == Candidate(d.provider, scores[d.provider], ties[d.provider]))
    && (forall i | 0 <= i < n && oks[i] :: Candidate(i, scores[i], ties[i]) in cs)
  }

  /**
   HerosScheduler::scheduleTask: every provider is tested, those that pass are scored and sorted, and a
   draw chooses among the best.  Whatever is chosen has passed; and unless the draw is 1 among several
   best, no provider that passed is better.
   */
  method ScheduleHeros(sites: seq<Site>, scores: seq<real>, ties: seq<real>, draw: real, t: Task, c: Consumer,
                       now: real)
    returns (r: Choice, after: seq<Site>, oks: seq<bool>)
    requires (forall i | 0 <= i < |sites| :: SiteOk(sites[i])) && |scores| == |ties| == |sites| && Asks(c)
      && now < t.deadline
    requires 0.0 <= draw <= 1.0
    ensures TestAll(sites, t, c, now) == (after, c, oks) && |oks| == |sites|
    ensures r.NoProvider? <==> NonePossible(oks)
    ensures r.Chosen? ==> var p := r.candidate.provider;
      p < |sites| && oks[p] && r.candidate == Candidate(p, scores[p], ties[p])
    ensures draw < 1.0 && !r.NoProvider? ==> r.Chosen? && var p := r.candidate.provider;
      p < |sites| && forall i | 0 <= i < |sites| && oks[i] ::
        scores[i] < scores[p] || (scores[i] == scores[p] && ties[i] <= ties[p])
  {
    after, oks := [], [];
    var cs: seq<Candidate> := [];
    hide *;
    NoneTested(sites, t, c, now);
    NoCandidates(scores, ties);
    for i := 0 to |sites|
      invariant TestedUpTo(sites, t, c, now, i, after, oks) && |after| == |oks| == i
      invariant Candidates(oks, scores, ties, i, cs)
    {
      var (s, _, ok) := Test(sites[i], t, c, now);
      TestedNext(sites, t, c, now, i, after, oks);
      MoreCandidates(oks, scores, ties, i, cs, ok);
      after, oks := after + [s], oks + [ok];
      if ok {
        cs := cs + [Candidate(i, scores[i], ties[i])];
      }
    }
    TestedAll(sites, t, c, now, after, oks);
    ghost var sorted;
    r, sorted := ChooseHeros(cs, draw);
    Choosing(oks, scores, ties, cs, sorted, draw, r);
  }

  lemma NoCandidates(scores: seq<real>, ties: seq<real>)
    requires |ties| == |scores|
    ensures Candidates([], scores, ties, 0, [])
  {}

  lemma MoreCandidates(oks: seq<bool>, scores: seq<real>, ties: seq<real>, n: nat, cs: seq<Candidate>, ok: bool)
    requires |oks| == n < |scores| && |ties| == |scores| && Candidates(oks, scores, ties, n, cs)
    ensures Candidates(oks + [ok], scores, ties, n + 1, if ok then cs + [Candidate(n, scores[n], ties[n])] else cs)
  {}

  /** What the choice among the candidates means for the providers. */
  lemma Choosing(oks: seq<bool>, scores: seq<real>, ties: seq<real>, cs: seq<Candidate>, sorted: seq<Candidate>,
                 draw: real, r: Choice)
    requires |oks| == |scores| == |ties| && Candidates(oks, scores, ties, |oks|, cs) && 0.0 <= draw <= 1.0
    requires Sorted(sorted) && multiset(sorted) == multiset(cs) && (r.NoProvider? <==> cs == [])
    requires cs != [] ==>
      var n := Ties(sorted, sorted[|sorted| - 1]);
      && 1 <= n <= |sorted| && r == Pick(sorted, n, draw)
      && (r.Chosen? && Top(cs, r.candidate) <==> draw < 1.0 || n == 1)
    ensures r.NoProvider? <==> NonePossible(oks)
    ensures r.Chosen? ==> var p := r.candidate.provider;
      p < |oks| && oks[p] && r.candidate == Candidate(p, scores[p], ties[p])
    ensures draw < 1.0 && !r.NoProvider? ==> r.Chosen? && var p := r.candidate.provider;
      p < |oks| && forall i | 0 <= i < |oks| && oks[i] ::
        scores[i] < scores[p] || (scores[i] == scores[p] && ties[i] <= ties[p])
  {
    hide Less, Sorted, Ties;
    if cs != [] {
      assert cs[0] in cs;
      if r.Chosen? {
        assert r.candidate in sorted;
        assert r.candidate in multiset(sorted);
        assert r.candidate in cs;
      }
    }
  }
}
