/** Removing tasks from lists of allocations and from cores. */
module AllocLists {
  import opened Scheduling

  lemma {:induction false} DropNone(s: seq<Alloc>, out: set<nat>)
    requires forall a :: a in s ==> a.task !in out
    ensures Drop(s, out) == s
  {
    if s != [] {
      assert s[0] in s;
      DropNone(s[1..], out);
    }
  }

  lemma {:induction false} DropEvery(s: seq<Alloc>, out: set<nat>)
    requires forall a :: a in s ==> a.task in out
    ensures Drop(s, out) == []
  {
    if s != [] {
      assert s[0] in s;
      DropEvery(s[1..], out);
    }
  }

  lemma HeadIn(s: seq<Alloc>)
    ensures s != [] ==> s[0] in s
  {}

  lemma FailNobody(n: Node)
    ensures FailAll(n, {}) == n
  {
    forall i | 0 <= i < |n.cores|
      ensures DropFrom(n.cores, {})[i] == n.cores[i]
    {
      DropNone(n.cores[i].active, {});
      DropNone(n.cores[i].inFly, {});
    }
    assert DropFrom(n.cores, {}) == n.cores;
  }
}
