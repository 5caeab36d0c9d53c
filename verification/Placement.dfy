/** How the placement policies choose among the providers they have tested. */
module Placement {
  import opened Common
  import opened Arithmetic

  // ---------- weighted choice (probabilistic scheduler) ----------

  /** The cumulative score up to and including provider i. */
  function Cumulative(scores: seq<real>, i: nat): real
    requires i < |scores|
  {
    Sum(scores[..i + 1])
  }

  predicate Ascending(s: seq<real>) {
    forall i, j | 0 <= i <= j < |s| :: s[i] <= s[j]
  }

  lemma CumulativeStep(scores: seq<real>, i: nat)
    requires 0 < i < |scores|
    ensures Cumulative(scores, i) == Cumulative(scores, i - 1) + scores[i]
  {
    assert scores[..i + 1] == scores[..i] + [scores[i]];
    SumAppend(scores[..i], [scores[i]]);
    assert Sum([scores[i]]) == scores[i] + Sum([]);
  }

  lemma {:induction false} CumulativeAscends(scores: seq<real>, i: nat, j: nat)
    requires NonNegative(scores) && i <= j < |scores|
    ensures Cumulative(scores, i) <= Cumulative(scores, j)
  {
    if i < j {
      CumulativeStep(scores, j);
      CumulativeAscends(scores, i, j - 1);
    }
  }

  /** The loop that fills the cumulative array. */
  method FillCumulative(scores: seq<real>) returns (cumul: array<real>)
    ensures fresh(cumul) && cumul.Length == |scores|
    ensures forall i | 0 <= i < |scores| :: cumul[i] == Cumulative(scores, i)
  {
    cumul := new real[|scores|];
    for i := 0 to |scores|
      invariant forall k | 0 <= k < i :: cumul[k] == Cumulative(scores, k)
    {
      if i == 0 {
        cumul[i] := scores[i];
        assert scores[..1] == [scores[0]] && Sum([scores[0]]) == scores[0] + Sum([]);
      } else {
        cumul[i] := scores[i] + cumul[i - 1];
        CumulativeStep(scores, i);
      }
    }
  }

  /** std::lower_bound: the first position whose value is not below r. */
  method LowerBound(s: seq<real>, r: real) returns (k: nat)
    requires Ascending(s)
    ensures k <= |s|
    ensures forall i | 0 <= i < k :: s[i] < r
    ensures forall i | k <= i < |s| :: r <= s[i]
  {
    var lo, hi := 0, |s|;
    while lo < hi
      invariant 0 <= lo <= hi <= |s|
      invariant forall i | 0 <= i < lo :: s[i] < r
      invariant forall i | hi <= i < |s| :: r <= s[i]
    {
      var mid := (lo + hi) / 2;
      if s[mid] < r {
        lo := mid + 1;
      } else {
        hi := mid;
      }
    }
    k := lo;
  }

  /** Provider k owns the draws up to its cumulative score, from the previous provider's on. */
  ghost predicate Owns(scores: seq<real>, k: nat, r: real)
    requires k < |scores|
  {
    r <= Cumulative(scores, k) && (k > 0 ==> Cumulative(scores, k - 1) < r)
  }

  /** The choice for a random fraction draw of the total score. */
  method ChooseWeighted(scores: seq<real>, draw: real) returns (k: nat)
    requires scores != [] && NonNegative(scores) && 0.0 <= draw <= 1.0
    ensures k < |scores| && Owns(scores, k, draw * Sum(scores))
  {
    var cumul := FillCumulative(scores);
    var total := cumul[|scores| - 1];
    assert scores[..|scores|] == scores;
    var r := draw * total;
    forall i, j | 0 <= i <= j < |scores|
      ensures cumul[i] <= cumul[j]
    {
      CumulativeAscends(scores, i, j);
    }
    SumNotNegative(scores);
    assert r <= total;
    k := LowerBound(cumul[..], r);
  }

  lemma {:induction false} SumNotNegative(s: seq<real>)
    requires NonNegative(s)
    ensures Sum(s) >= 0.0
  {
    if s != [] {
      SumNotNegative(s[1..]);
    }
  }

  /** Every draw is owned by exactly one provider, and the part k owns is as long as its score. */
  lemma Partition(scores: seq<real>, r: real, k: nat, j: nat)
    requires NonNegative(scores) && k < |scores| && j < |scores| && Owns(scores, k, r) && Owns(scores, j, r)
    ensures k == j
    ensures k > 0 ==> Cumulative(scores, k) - Cumulative(scores, k - 1) == scores[k]
    ensures k == 0 ==> Cumulative(scores, k) == scores[k]
  {
    if k < j {
      CumulativeAscends(scores, k, j - 1);
    } else if j < k {
      CumulativeAscends(scores, j, k - 1);
    }
    if k > 0 {
      CumulativeStep(scores, k);
    } else {
      assert scores[..1] == [scores[0]] && Sum([scores[0]]) == scores[0] + Sum([]);
    }
  }

  /** A provider without score is chosen only by a draw of zero. */
  lemma NoScoreNoChoice(scores: seq<real>, k: nat, r: real)
    requires NonNegative(scores) && k < |scores| && Owns(scores, k, r) && scores[k] == 0.0
    ensures k == 0 && r <= 0.0
  {
    Partition(scores, r, k, k);
  }

  // ---------- best score ----------

  datatype Scoring = Scoring(provider: nat, score: real)

  predicate NonePossible(possible: seq<bool>) {
    forall i | 0 <= i < |possible| :: !possible[i]
  }

  /** Provider k passed the test, none that passed has a higher score, and none before it has as high a score. */
  predicate IsBest(possible: seq<bool>, scores: seq<real>, k: nat)
    requires |possible| == |scores|
  {
    && k < |scores| && possible[k]
    && (forall i | 0 <= i < |scores| && possible[i] :: scores[i] <= scores[k])
    && (forall i | 0 <= i < k && possible[i] :: scores[i] < scores[k])
  }

  /** std::max_element: the first of the largest. */
  method MaxElement(s: seq<Scoring>) returns (m: nat)
    requires s != []
    ensures IsFirstMax(s, m)
  {
    m := 0;
    for i := 1 to |s|
      invariant 0 <= m < i <= |s| && IsFirstMax(s[..i], m)
    {
      if s[m].score < s[i].score {
        m := i;
      }
    }
    assert s[..|s|] == s;
  }

  predicate IsFirstMax(s: seq<Scoring>, m: nat) {
    m < |s| && forall j | 0 <= j < |s| :: s[j].score <= s[m].score && (j < m ==> s[j].score < s[m].score)
  }

  lemma ScoredBest(possible: seq<bool>, scores: seq<real>, scored: seq<Scoring>, m: nat)
    requires |possible| == |scores| && Scored(possible, scores, |possible|, scored) && IsFirstMax(scored, m)
    ensures m < |scored| && IsBest(possible, scores, scored[m].provider) && !NonePossible(possible)
  {
    var k := scored[m].provider;
    forall i | 0 <= i < |scores| && possible[i]
      ensures scores[i] <= scores[k] && (i < k ==> scores[i] < scores[k])
    {
      var j :| 0 <= j < |scored| && scored[j].provider == i;
      assert i < k ==> j < m;
    }
  }

  /** The vector of scored providers: those among the first n that passed, in order. */
  ghost predicate Scored(possible: seq<bool>, scores: seq<real>, n: nat, scored: seq<Scoring>)
    requires |possible| == |scores|
  {
    && n <= |possible|
    && (forall j | 0 <= j < |scored| ::
          scored[j].provider < n && possible[scored[j].provider] && scored[j].score == scores[scored[j].provider])
    && (forall i, j | 0 <= i < j < |scored| :: scored[i].provider < scored[j].provider)
    && (forall i | 0 <= i < n && possible[i] :: exists j :: 0 <= j < |scored| && scored[j].provider == i)
  }

  lemma ScoredNone(possible: seq<bool>, scores: seq<real>)
    requires |possible| == |scores|
    ensures Scored(possible, scores, 0, [])
  {}

  lemma ScoredEmpty(possible: seq<bool>, scores: seq<real>)
    requires |possible| == |scores| && Scored(possible, scores, |possible|, [])
    ensures NonePossible(possible)
  {}

  lemma ScoredNext(possible: seq<bool>, scores: seq<real>, n: nat, scored: seq<Scoring>)
    requires |possible| == |scores| && n < |possible| && Scored(possible, scores, n, scored)
    ensures Scored(possible, scores, n + 1, if possible[n] then scored + [Scoring(n, scores[n])] else scored)
  {
    var more := if possible[n] then scored + [Scoring(n, scores[n])] else scored;
    forall i | 0 <= i <= n && possible[i]
      ensures exists j :: 0 <= j < |more| && more[j].provider == i
    {
      if i < n {
        var j :| 0 <= j < |scored| && scored[j].provider == i;
        assert more[j].provider == i;
      } else {
        assert more[|scored|].provider == n;
      }
    }
  }

  // ---------- HEROS ----------

  /** A provider that passed the test, its score, and what decides between equal scores. */
  datatype Candidate = Candidate(provider: nat, score: real, tie: real)

  /** herosComparator. */
  predicate Less(a: Candidate, b: Candidate) {
    if a.score != b.score then a.score < b.score else a.tie < b.tie
  }

  predicate Sorted(s: seq<Candidate>) {
    forall i, j | 0 <= i <= j < |s| :: !Less(s[j], s[i])
  }

  /** No candidate has a higher score, nor the same score and more to decide between equal scores. */
  predicate Top(s: seq<Candidate>, c: Candidate) {
    c in s && forall d :: d in s ==> AtLeast(c.score, c.tie, d.score, d.tie)
  }

  /** The first score is higher, or the scores are equal and what decides between them is no less. */
  predicate AtLeast(score: real, tie: real, score1: real, tie1: real) {
    score1 < score || (score1 == score && tie1 <= tie)
  }

  /** The sort of the scored providers: any sorted rearrangement will do, this one inserts. */
  method Sort(s: seq<Candidate>) returns (t: seq<Candidate>)
    ensures Sorted(t) && multiset(t) == multiset(s)
  {
    t := [];
    hide Sorted, Less;
    SortedNone();
    for i := 0 to |s|
      invariant Sorted(t) && multiset(t) == multiset(s[..i])
    {
      var j := 0;
      while j < |t| && !Less(s[i], t[j])
        invariant j <= |t| && forall k | 0 <= k < j :: !Less(s[i], t[k])
      {
        j := j + 1;
      }
      Inserted(t, j, s[i]);
      assert s[..i + 1] == s[..i] + [s[i]];
      t := t[..j] + [s[i]] + t[j..];
    }
    assert s[..|s|] == s;
  }

  lemma SortedNone()
    ensures Sorted([])
  {}

  lemma Inserted(t: seq<Candidate>, j: nat, x: Candidate)
    requires Sorted(t) && j <= |t| && (forall k | 0 <= k < j :: !Less(x, t[k])) && (j < |t| ==> Less(x, t[j]))
    ensures Sorted(t[..j] + [x] + t[j..])
    ensures multiset(t[..j] + [x] + t[j..]) == multiset(t) + multiset{x}
  {
    assert t == t[..j] + t[j..];
    var u := t[..j] + [x] + t[j..];
    hide Less;
    forall a, b | 0 <= a <= b < |u|
      ensures !Less(u[b], u[a])
    {
      InsertedPair(t, j, x, a, b);
    }
  }

  lemma InsertedPair(t: seq<Candidate>, j: nat, x: Candidate, a: nat, b: nat)
    requires Sorted(t) && j <= |t| && (forall k | 0 <= k < j :: !Less(x, t[k])) && (j < |t| ==> Less(x, t[j]))
    requires a <= b <= |t|
    ensures var u := t[..j] + [x] + t[j..]; !Less(u[b], u[a])
  {
    var u := t[..j] + [x] + t[j..];
    assert u[a] == (if a < j then t[a] else if a == j then x else t[a - 1]);
    assert u[b] == (if b < j then t[b] else if b == j then x else t[b - 1]);
    hide Less;
    if a == b {
      LessIrreflexive(u[a]);
    } else if a == j {
      LessTrans(x, t[j], t[b - 1]);
    }
  }

  lemma LessIrreflexive(x: Candidate)
    ensures !Less(x, x)
  {}

  lemma LessTrans(x: Candidate, y: Candidate, z: Candidate)
    requires Less(x, y) && !Less(z, y)
    ensures !Less(z, x)
  {}

  /** NoProvider: nothing passed the test.  OutOfRange: the vector access throws. */
  datatype Choice = NoProvider | Chosen(candidate: Candidate) | OutOfRange

  /** How many candidates at the end of a sorted list are as good as its last. */
  function Ties(s: seq<Candidate>, best: Candidate): nat {
    if s == [] || Less(s[|s| - 1], best) then 0 else 1 + Ties(s[..|s| - 1], best)
  }

  lemma {:induction false} TiesAre(s: seq<Candidate>, best: Candidate, i: nat)
    requires Sorted(s) && (forall c :: c in s ==> !Less(best, c)) && i < |s|
    ensures Ties(s, best) <= |s|
    ensures |s| - Ties(s, best) <= i <==> !Less(s[i], best)
  {
    var last := s[|s| - 1];
    if !Less(last, best) {
      assert last in s;
      var t := s[..|s| - 1];
      assert forall k | 0 <= k < |t| :: t[k] in s;
      if i < |s| - 1 {
        TiesAre(t, best, i);
      } else if t != [] {
        TiesAre(t, best, 0);
      }
    } else {
      assert !Less(last, s[i]);
    }
  }

  /** The draw selects one of the n tied best, counted from the end. */
  function Pick(s: seq<Candidate>, n: nat, draw: real): Choice
    requires 1 <= n <= |s| && 0.0 <= draw <= 1.0
  {
    var selected := if n == 1 then 1 else (draw * n as real + 1.0).Floor;
    if 1 <= selected <= |s| then Chosen(s[|s| - selected]) else OutOfRange
  }

  /**
   The choice among the candidates for a random draw in [0, 1].  The scan from the end counts the
   tied best; with several, the draw selects one of them.  What is chosen is one of the best exactly
   when the draw is below 1 or there is a single best.
   */
  method ChooseHeros(candidates: seq<Candidate>, draw: real) returns (r: Choice, ghost sorted: seq<Candidate>)
    requires 0.0 <= draw <= 1.0
    ensures Sorted(sorted) && multiset(sorted) == multiset(candidates)
    ensures r.NoProvider? <==> candidates == []
    ensures candidates != [] ==>
      var n := Ties(sorted, sorted[|sorted| - 1]);
      && 1 <= n <= |sorted| && r == Pick(sorted, n, draw)
      && (r.Chosen? && Top(candidates, r.candidate) <==> draw < 1.0 || n == 1)
  {
    hide Sorted, Less, Top, Ties;
    SortedNone();
    if candidates == [] {
      return NoProvider, [];
    }
    var scored := Sort(candidates);
    sorted := scored;
    HerosPicksTop(candidates, scored);
    var best := scored[|scored| - 1];
    var maxN := CountTies(scored, best);
    PickMeaning(candidates, scored, draw);
    if maxN != 1 {
      var selected := (draw * maxN as real + 1.0).Floor;
      DrawBounds(draw, maxN);
      if selected > |scored| {
        return OutOfRange, scored;
      }
      best := scored[|scored| - selected];
    }
    r := Chosen(best);
  }

  method CountTies(scored: seq<Candidate>, best: Candidate) returns (maxN: nat)
    ensures maxN == Ties(scored, best)
  {
    maxN := 0;
    var i := |scored|;
    assert scored[..i] == scored;
    while i > 0
      invariant 0 <= i <= |scored| && Ties(scored, best) == maxN + Ties(scored[..i], best)
    {
      assert scored[..i][..i - 1] == scored[..i - 1];
      if !Less(scored[i - 1], best) {
        maxN := maxN + 1;
      } else {
        break;
      }
      i := i - 1;
    }
  }

  lemma PickMeaning(candidates: seq<Candidate>, s: seq<Candidate>, draw: real)
    requires candidates != [] && Sorted(s) && multiset(s) == multiset(candidates) && 0.0 <= draw <= 1.0
    requires |s| == |candidates| && 1 <= Ties(s, s[|s| - 1]) <= |s|
    ensures var n := Ties(s, s[|s| - 1]);
      Pick(s, n, draw).Chosen? && Top(candidates, Pick(s, n, draw).candidate) <==> draw < 1.0 || n == 1
  {
    var n := Ties(s, s[|s| - 1]);
    HerosPicksTop(candidates, s);
    DrawBounds(draw, n);
    hide Ties;
  }

  /** The draw is fair: each of n tied candidates is chosen by one n-th of the draws. */
  lemma EvenDraw(s: seq<Candidate>, n: nat, draw: real, i: nat)
    requires 1 <= n <= |s| && i < n && 0.0 <= draw < 1.0
    requires i as real / n as real <= draw < (i + 1) as real / n as real
    ensures Pick(s, n, draw) == Chosen(s[|s| - 1 - i])
  {
    DrawBounds(draw, n);
    Share(draw, i as real, n as real);
    FloorIs(draw * n as real, i);
  }

  lemma Share(draw: real, i: real, n: real)
    requires n > 0.0 && i / n <= draw < (i + 1.0) / n
    ensures i <= draw * n < i + 1.0
  {
    AtMostProduct(i, n, draw);
    if draw * n >= i + 1.0 {
      assert n * draw == draw * n;
      AtMostQuotient(i + 1.0, n, draw);
    }
  }

  lemma FloorIs(x: real, i: nat)
    requires i as real <= x < i as real + 1.0
    ensures x.Floor == i
  {}

  lemma DrawBounds(draw: real, n: nat)
    requires 0.0 <= draw <= 1.0
    ensures (draw * n as real + 1.0).Floor == (draw * n as real).Floor + 1
    ensures 0 <= (draw * n as real).Floor <= n
    ensures draw < 1.0 && n > 0 ==> (draw * n as real).Floor < n
    ensures draw == 1.0 ==> (draw * n as real).Floor == n
  {
    DrawScaled(draw, n as real);
    FloorBounds(draw * n as real, n);
  }

  lemma DrawScaled(draw: real, n: real)
    requires 0.0 <= draw <= 1.0 && n >= 0.0
    ensures 0.0 <= draw * n <= n
    ensures draw < 1.0 && n > 0.0 ==> draw * n < n
    ensures draw == 1.0 ==> draw * n == n
  {
    Scale(draw, 1.0, n);
    if draw < 1.0 && n > 0.0 {
      ScaleStrict(draw, 1.0, n);
    }
  }

  lemma FloorBounds(x: real, n: nat)
    requires 0.0 <= x <= n as real
    ensures (x + 1.0).Floor == x.Floor + 1 && 0 <= x.Floor <= n
    ensures x < n as real ==> x.Floor < n
    ensures x == n as real ==> x.Floor == n
  {}

  /** The best candidates are exactly the tied ones at the end of the sorted list. */
  lemma HerosPicksTop(candidates: seq<Candidate>, sorted: seq<Candidate>)
    requires candidates != [] && Sorted(sorted) && multiset(sorted) == multiset(candidates)
    ensures |sorted| == |candidates|
    ensures var best := sorted[|sorted| - 1];
      var n := Ties(sorted, best);
      && 1 <= n <= |sorted| && Top(candidates, best)
      && (forall k | 0 <= k < |sorted| :: Top(candidates, sorted[k]) <==> |sorted| - n <= k)
  {
    assert |sorted| == |multiset(sorted)| == |candidates|;
    var best := sorted[|sorted| - 1];
    forall c | c in candidates
      ensures c in sorted && !Less(best, c)
    {
      assert c in multiset(sorted);
      var i :| 0 <= i < |sorted| && sorted[i] == c;
    }
    forall c | c in sorted
      ensures c in candidates
    {
      assert c in multiset(candidates);
    }
    TiesAre(sorted, best, |sorted| - 1);
    forall k | 0 <= k < |sorted|
      ensures Top(candidates, sorted[k]) <==> |sorted| - Ties(sorted, best) <= k
    {
      TiesAre(sorted, best, k);
      assert sorted[k] in sorted && best in sorted;
      if !Less(sorted[k], best) {
        forall d | d in candidates
          ensures !Less(sorted[k], d)
        {
        }
      }
    }
  }
}
