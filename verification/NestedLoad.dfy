/** The load of a core with the virtual cores it hosts, and theirs, to any depth. */
module NestedLoad {
  import opened Common
  import opened Arithmetic

  /**
   available is the rate left for the core's own tasks, current the rate they run at, withheld
   what migrations hold for virtual cores that are still to come.
   */
  datatype Core = Core(nominal: real, available: real, current: real, withheld: real, hosted: seq<Core>)

  /** getCurrentMIPSRecursive. */
  function Mips(c: Core): real {
    c.current + MipsOf(c.hosted)
  }

  function MipsOf(cs: seq<Core>): real {
    if cs == [] then 0.0 else Mips(cs[0]) + MipsOf(cs[1..])
  }

  function NominalOf(cs: seq<Core>): real {
    if cs == [] then 0.0 else cs[0].nominal + NominalOf(cs[1..])
  }

  /** What a core is worth is all accounted for, at every depth. */
  predicate Accounted(c: Core) {
    && c.available + c.withheld + NominalOf(c.hosted) == c.nominal
    && c.nominal >= 0.0 && c.available >= 0.0 && c.withheld >= 0.0 && c.current >= 0.0
    && forall i | 0 <= i < |c.hosted| :: Accounted(c.hosted[i])
  }

  /** No core runs its own tasks faster than the rate that is left for them. */
  predicate Modest(c: Core) {
    c.current <= c.available && forall i | 0 <= i < |c.hosted| :: Modest(c.hosted[i])
  }

  /** The rate that a core and the cores it hosts leave unused. */
  function Idle(c: Core): real {
    c.available - c.current + c.withheld + IdleOf(c.hosted)
  }

  function IdleOf(cs: seq<Core>): real {
    if cs == [] then 0.0 else Idle(cs[0]) + IdleOf(cs[1..])
  }

  /** The load is the nominal rate less what is idle anywhere below. */
  lemma {:induction false} LoadExactly(c: Core)
    requires Accounted(c)
    ensures Mips(c) == c.nominal - Idle(c)
    decreases c, 2
  {
    LoadsExactly(c, |c.hosted|);
    assert c.hosted[..|c.hosted|] == c.hosted;
  }

  lemma {:induction false} LoadsExactly(c: Core, n: nat)
    requires Accounted(c) && n <= |c.hosted|
    ensures MipsOf(c.hosted[..n]) == NominalOf(c.hosted[..n]) - IdleOf(c.hosted[..n])
    decreases c, 1, n
  {
    if n > 0 {
      LoadExactly(c.hosted[n - 1]);
      LoadsExactly(c, n - 1);
      SumsNext(c.hosted, n - 1);
    }
  }

  lemma {:induction false} SumsNext(cs: seq<Core>, n: nat)
    requires n < |cs|
    ensures MipsOf(cs[..n + 1]) == MipsOf(cs[..n]) + Mips(cs[n])
    ensures NominalOf(cs[..n + 1]) == NominalOf(cs[..n]) + cs[n].nominal
    ensures IdleOf(cs[..n + 1]) == IdleOf(cs[..n]) + Idle(cs[n])
  {
    if n > 0 {
      SumsNext(cs[1..], n - 1);
      assert cs[..n + 1][1..] == cs[1..][..n] && cs[..n][1..] == cs[1..][..n - 1];
    } else {
      assert cs[..1] == [cs[0]] && cs[..0] == [];
    }
  }

  /** So a core whose own tasks and whose virtual cores are all modest is never loaded beyond its nominal rate. */
  lemma {:induction false} LoadAtMostNominal(c: Core)
    requires Accounted(c) && Modest(c)
    ensures 0.0 <= Mips(c) <= c.nominal
    decreases c, 2
  {
    LoadsAtMostNominal(c, |c.hosted|);
    assert c.hosted[..|c.hosted|] == c.hosted;
  }

  lemma {:induction false} LoadsAtMostNominal(c: Core, n: nat)
    requires Accounted(c) && Modest(c) && n <= |c.hosted|
    ensures 0.0 <= MipsOf(c.hosted[..n]) <= NominalOf(c.hosted[..n])
    decreases c, 1, n
  {
    if n > 0 {
      LoadAtMostNominal(c.hosted[n - 1]);
      LoadsAtMostNominal(c, n - 1);
      SumsNext(c.hosted, n - 1);
    }
  }

  /** CPU::getUtilization. */
  function Utilization(cs: seq<Core>): real
    requires NominalOf(cs) != 0.0
  {
    MipsOf(cs) / NominalOf(cs)
  }

  lemma {:induction false} UtilizationAtMostOne(cs: seq<Core>)
    requires NominalOf(cs) != 0.0 && forall i | 0 <= i < |cs| :: Accounted(cs[i]) && Modest(cs[i])
    ensures 0.0 <= Utilization(cs) <= 1.0
  {
    CpuAtMostNominal(cs);
    Portion(MipsOf(cs), NominalOf(cs));
    hide MipsOf, NominalOf;
  }

  lemma Portion(x: real, n: real)
    requires 0.0 <= x <= n && n != 0.0
    ensures 0.0 <= x / n <= 1.0
  {
    AtMostQuotient(x, n, 1.0);
    var q := x / n;
    assert x == n * q;
    Cancel(0.0, q, n);
  }

  lemma {:induction false} CpuAtMostNominal(cs: seq<Core>)
    requires forall i | 0 <= i < |cs| :: Accounted(cs[i]) && Modest(cs[i])
    ensures 0.0 <= MipsOf(cs) <= NominalOf(cs)
  {
    if cs != [] {
      LoadAtMostNominal(cs[0]);
      CpuAtMostNominal(cs[1..]);
    }
  }

  /** Nothing runs on the core, nor on any it hosts. */
  predicate Still(c: Core) {
    c.current == 0.0 && forall i | 0 <= i < |c.hosted| :: Still(c.hosted[i])
  }

  /** The core uses all the rate it has, nothing is withheld from it, and so for every core it hosts. */
  predicate Full(c: Core) {
    c.current == c.available && c.withheld == 0.0 && forall i | 0 <= i < |c.hosted| :: Full(c.hosted[i])
  }

  lemma {:induction false} LoadBounds(c: Core)
    requires Accounted(c) && Modest(c)
    ensures Mips(c) >= 0.0 && (Mips(c) == 0.0 <==> Still(c))
    ensures Idle(c) >= 0.0 && (Idle(c) == 0.0 <==> Full(c))
    decreases c, 2
  {
    LoadsBounds(c, |c.hosted|);
    assert c.hosted[..|c.hosted|] == c.hosted;
  }

  lemma {:induction false} LoadsBounds(c: Core, n: nat)
    requires Accounted(c) && Modest(c) && n <= |c.hosted|
    ensures MipsOf(c.hosted[..n]) >= 0.0
    ensures MipsOf(c.hosted[..n]) == 0.0 <==> forall i | 0 <= i < n :: Still(c.hosted[i])
    ensures IdleOf(c.hosted[..n]) >= 0.0
    ensures IdleOf(c.hosted[..n]) == 0.0 <==> forall i | 0 <= i < n :: Full(c.hosted[i])
    decreases c, 1, n
  {
    if n > 0 {
      LoadBounds(c.hosted[n - 1]);
      LoadsBounds(c, n - 1);
      SumsNext(c.hosted, n - 1);
    }
  }

  lemma {:induction false} CpuBounds(cs: seq<Core>)
    requires forall i | 0 <= i < |cs| :: Accounted(cs[i]) && Modest(cs[i])
    ensures MipsOf(cs) >= 0.0 && (MipsOf(cs) == 0.0 <==> forall i | 0 <= i < |cs| :: Still(cs[i]))
    ensures IdleOf(cs) >= 0.0 && (IdleOf(cs) == 0.0 <==> forall i | 0 <= i < |cs| :: Full(cs[i]))
  {
    if cs != [] {
      LoadBounds(cs[0]);
      CpuBounds(cs[1..]);
    }
  }

  lemma {:induction false} CpuExactly(cs: seq<Core>)
    requires forall i | 0 <= i < |cs| :: Accounted(cs[i])
    ensures MipsOf(cs) == NominalOf(cs) - IdleOf(cs)
  {
    if cs != [] {
      LoadExactly(cs[0]);
      CpuExactly(cs[1..]);
    }
  }

  /** The utilisation is what is not idle, as a portion of the nominal rate. */
  lemma UtilizationExactly(cs: seq<Core>)
    requires NominalOf(cs) != 0.0 && forall i | 0 <= i < |cs| :: Accounted(cs[i])
    ensures Utilization(cs) == 1.0 - IdleOf(cs) / NominalOf(cs)
  {
    CpuExactly(cs);
    Shortfall(IdleOf(cs), NominalOf(cs));
    hide MipsOf, IdleOf, NominalOf;
  }

  lemma Shortfall(x: real, n: real)
    requires n != 0.0
    ensures (n - x) / n == 1.0 - x / n
  {
    QuotientMoves(x, n - x, n);
    assert n / n == 1.0;
  }

  /** It is 0 exactly if nothing runs anywhere below, and 1 exactly if everything below is used to the full. */
  lemma UtilizationEnds(cs: seq<Core>)
    requires NominalOf(cs) != 0.0 && forall i | 0 <= i < |cs| :: Accounted(cs[i]) && Modest(cs[i])
    ensures Utilization(cs) == 0.0 <==> forall i | 0 <= i < |cs| :: Still(cs[i])
    ensures Utilization(cs) == 1.0 <==> forall i | 0 <= i < |cs| :: Full(cs[i])
  {
    CpuBounds(cs);
    CpuExactly(cs);
    hide MipsOf, IdleOf, NominalOf, Still, Full;
    QuotientEnds(MipsOf(cs), NominalOf(cs));
  }

  lemma QuotientEnds(x: real, n: real)
    requires n != 0.0
    ensures x / n == 0.0 <==> x == 0.0
    ensures x / n == 1.0 <==> x == n
  {
    var q := x / n;
    assert x == n * q;
  }

  predicate Leads(c: Core, path: seq<nat>)
    decreases |path|
  {
    path == [] || (path[0] < |c.hosted| && Leads(c.hosted[path[0]], path[1..]))
  }

  /** The core at the end of a path. */
  function At(c: Core, path: seq<nat>): Core
    requires Leads(c, path)
    decreases |path|
  {
    if path == [] then c else At(c.hosted[path[0]], path[1..])
  }

  /** An event that changes the rate of one core, at any depth, by x changes it by x over the nominal rate. */
  lemma UtilizationMoves(cs: seq<Core>, i: nat, path: seq<nat>, rate: real)
    requires NominalOf(cs) != 0.0 && i < |cs| && Enabled(cs[i], path, Rate(rate))
    ensures Leads(cs[i], path)
    ensures var ds := cs[i := Act(cs[i], path, Rate(rate))];
      NominalOf(ds) == NominalOf(cs)
      && Utilization(ds) == Utilization(cs) + (rate - At(cs[i], path).current) / NominalOf(cs)
  {
    var ds := cs[i := Act(cs[i], path, Rate(rate))];
    RateMoves(cs[i], path, rate);
    MipsUpdate(cs, i, ds[i]);
    NominalUpdate(cs, i, ds[i]);
    hide MipsOf, NominalOf, Act, At;
    QuotientMoves(MipsOf(cs), rate - At(cs[i], path).current, NominalOf(cs));
  }

  lemma QuotientMoves(x: real, y: real, n: real)
    requires n != 0.0
    ensures (x + y) / n == x / n + y / n
  {}

  lemma {:induction false} RateMoves(c: Core, path: seq<nat>, rate: real)
    requires Enabled(c, path, Rate(rate))
    ensures Leads(c, path)
    ensures var d := Act(c, path, Rate(rate));
      d.nominal == c.nominal && Mips(d) == Mips(c) + rate - At(c, path).current
    decreases |path|
  {
    if path != [] {
      RateMoves(c.hosted[path[0]], path[1..], rate);
      MipsUpdate(c.hosted, path[0], Act(c.hosted[path[0]], path[1..], Rate(rate)));
    }
  }

  lemma {:induction false} MipsUpdate(cs: seq<Core>, i: nat, c: Core)
    requires i < |cs|
    ensures MipsOf(cs[i := c]) == MipsOf(cs) + Mips(c) - Mips(cs[i])
  {
    if i == 0 {
      assert cs[i := c][1..] == cs[1..];
    } else {
      assert cs[i := c][1..] == cs[1..][i - 1 := c];
      MipsUpdate(cs[1..], i - 1, c);
    }
  }

  // ---------- whatever happens at whatever depth ----------

  /**
   - Rate: setComputingRate; with DVFS the rate may be more than is left for the core's tasks.
   - Withhold, Restore: a migration reserves and returns a part of that rate.
   - Host, Unhost: a virtual core, with all it hosts itself, comes and goes.
   */
  datatype Event = Rate(x: real) | Withhold(x: real) | Restore(x: real) | Host(v: Core) | Unhost(i: nat)

  predicate Enabled(c: Core, path: seq<nat>, e: Event) {
    if path != [] then path[0] < |c.hosted| && Enabled(c.hosted[path[0]], path[1..], e) else
    match e
    case Rate(x) => x >= 0.0
    case Withhold(x) => 0.0 <= x <= c.available
    case Restore(x) => 0.0 <= x <= c.withheld
    case Host(v) => v.nominal <= c.available && Accounted(v)
    case Unhost(i) => i < |c.hosted|
  }

  function Act(c: Core, path: seq<nat>, e: Event): Core
    requires Enabled(c, path, e)
    decreases |path|
  {
    if path != [] then c.(hosted := c.hosted[path[0] := Act(c.hosted[path[0]], path[1..], e)]) else
    match e
    case Rate(x) => c.(current := x)
    case Withhold(x) => c.(available := c.available - x, withheld := c.withheld + x)
    case Restore(x) => c.(available := c.available + x, withheld := c.withheld - x)
    case Host(v) => c.(available := c.available - v.nominal, hosted := c.hosted + [v])
    case Unhost(i) => c.(available := c.available + c.hosted[i].nominal, hosted := c.hosted[..i] + c.hosted[i + 1..])
  }

  lemma {:induction false} NominalAppend(cs: seq<Core>, ds: seq<Core>)
    ensures NominalOf(cs + ds) == NominalOf(cs) + NominalOf(ds)
  {
    if cs == [] {
      assert cs + ds == ds;
    } else {
      assert (cs + ds)[1..] == cs[1..] + ds;
      NominalAppend(cs[1..], ds);
    }
  }

  lemma NominalOne(c: Core, cs: seq<Core>)
    ensures NominalOf([c] + cs) == c.nominal + NominalOf(cs)
  {
    assert ([c] + cs)[1..] == cs;
  }

  lemma NominalSplit(cs: seq<Core>, i: nat)
    requires i < |cs|
    ensures NominalOf(cs) == NominalOf(cs[..i]) + cs[i].nominal + NominalOf(cs[i + 1..])
  {
    hide NominalOf;
    assert cs == cs[..i] + ([cs[i]] + cs[i + 1..]);
    NominalAppend(cs[..i], [cs[i]] + cs[i + 1..]);
    NominalOne(cs[i], cs[i + 1..]);
  }

  lemma NominalWithout(cs: seq<Core>, i: nat)
    requires i < |cs|
    ensures NominalOf(cs[..i] + cs[i + 1..]) == NominalOf(cs) - cs[i].nominal
  {
    hide NominalOf;
    NominalSplit(cs, i);
    NominalAppend(cs[..i], cs[i + 1..]);
  }

  lemma NominalUpdate(cs: seq<Core>, i: nat, c: Core)
    requires i < |cs| && c.nominal == cs[i].nominal
    ensures NominalOf(cs[i := c]) == NominalOf(cs)
  {
    hide NominalOf;
    NominalSplit(cs, i);
    NominalSplit(cs[i := c], i);
    assert cs[i := c][..i] == cs[..i] && cs[i := c][i + 1..] == cs[i + 1..];
  }

  lemma {:induction false} ActAccounted(c: Core, path: seq<nat>, e: Event)
    requires Accounted(c) && Enabled(c, path, e)
    ensures Accounted(Act(c, path, e)) && Act(c, path, e).nominal == c.nominal
    decreases |path|
  {
    var r := Act(c, path, e);
    if path != [] {
      ActAccounted(c.hosted[path[0]], path[1..], e);
      NominalUpdate(c.hosted, path[0], r.hosted[path[0]]);
    } else if e.Host? {
      NominalAppend(c.hosted, [e.v]);
      NominalOne(e.v, []);
      assert [e.v] + [] == [e.v];
    } else if e.Unhost? {
      NominalWithout(c.hosted, e.i);
    }
  }

  /** After the event the core's own tasks run at no more than the rate that is left for them. */
  predicate Gentle(c: Core, path: seq<nat>, e: Event)
    requires Enabled(c, path, e)
    decreases |path|
  {
    if path != [] then Gentle(c.hosted[path[0]], path[1..], e) else
    match e
    case Rate(x) => x <= c.available
    case Withhold(x) => c.current <= c.available - x
    case Host(v) => c.current <= c.available - v.nominal && Modest(v)
    case _ => true
  }

  lemma {:induction false} ActModest(c: Core, path: seq<nat>, e: Event)
    requires Accounted(c) && Modest(c) && Enabled(c, path, e)
    ensures Modest(Act(c, path, e)) <==> Gentle(c, path, e)
    decreases |path|
  {
    var r := Act(c, path, e);
    if path != [] {
      ActModest(c.hosted[path[0]], path[1..], e);
      assert r.hosted[path[0]] == Act(c.hosted[path[0]], path[1..], e);
      assert forall i | 0 <= i < |c.hosted| && i != path[0] :: r.hosted[i] == c.hosted[i];
    } else if e.Host? {
      assert r.hosted[|c.hosted|] == e.v;
    } else if e.Unhost? {
      assert forall i | 0 <= i < |r.hosted| :: r.hosted[i] == c.hosted[if i < e.i then i else i + 1];
    }
  }

  predicate Valid(c: Core, run: seq<(seq<nat>, Event)>)
    decreases |run|
  {
    run == [] || (Enabled(c, run[0].0, run[0].1) && Valid(Act(c, run[0].0, run[0].1), run[1..]))
  }

  predicate AllGentle(c: Core, run: seq<(seq<nat>, Event)>)
    requires Valid(c, run)
    decreases |run|
  {
    run == [] || (Gentle(c, run[0].0, run[0].1) && AllGentle(Act(c, run[0].0, run[0].1), run[1..]))
  }

  function Run(c: Core, run: seq<(seq<nat>, Event)>): Core
    requires Valid(c, run)
    decreases |run|
  {
    if run == [] then c else Run(Act(c, run[0].0, run[0].1), run[1..])
  }

  /** In every run of gentle events the load of the core stays within its nominal rate, which never changes. */
  lemma {:induction false} NeverOverloaded(c: Core, run: seq<(seq<nat>, Event)>)
    requires Accounted(c) && Modest(c) && Valid(c, run) && AllGentle(c, run)
    ensures Accounted(Run(c, run)) && Modest(Run(c, run))
    ensures Run(c, run).nominal == c.nominal && 0.0 <= Mips(Run(c, run)) <= c.nominal
    decreases |run|
  {
    if run == [] {
      LoadAtMostNominal(c);
    } else {
      ActAccounted(c, run[0].0, run[0].1);
      ActModest(c, run[0].0, run[0].1);
      NeverOverloaded(Act(c, run[0].0, run[0].1), run[1..]);
    }
  }

  /**
   A rate that is not gentle overloads the core exactly if it takes up more than what is idle.  That
   setComputingRate can choose such a rate, and when, is the subject of Admission.PaceWithin.
   */
  lemma RateOverload(c: Core, x: real)
    requires Accounted(c) && Enabled(c, [], Rate(x))
    ensures var r := Act(c, [], Rate(x));
      && Mips(r) == Mips(c) + x - c.current
      && (Mips(r) <= r.nominal <==> x <= c.current + Idle(c))
  {
    LoadExactly(c);
  }

  /**
   Hosting takes rate away from tasks that go on running at their old rate until setComputingRate is
   next called.
   */
  lemma HostingOverload(c: Core, v: Core)
    requires Accounted(c) && Enabled(c, [], Host(v))
    ensures var r := Act(c, [], Host(v));
      && Mips(r) == Mips(c) + Mips(v)
      && (Mips(r) <= r.nominal <==> Mips(v) <= Idle(c))
  {
    LoadExactly(c);
    MipsAppend(c.hosted, [v]);
    assert MipsOf([v]) == Mips(v) + MipsOf([]);
  }

  lemma {:induction false} MipsAppend(cs: seq<Core>, ds: seq<Core>)
    ensures MipsOf(cs + ds) == MipsOf(cs) + MipsOf(ds)
  {
    if cs == [] {
      assert cs + ds == ds;
    } else {
      assert (cs + ds)[1..] == cs[1..] + ds;
      MipsAppend(cs[1..], ds);
    }
  }
}
