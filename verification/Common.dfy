/** Small datatypes and sums shared by the other modules. */
module Common {
  datatype Option<+T> = None | Some(value: T)

  function Min(a: real, b: real): real {
    if a <= b then a else b
  }

  function Max(a: real, b: real): real {
    if a >= b then a else b
  }

  function Sum(s: seq<real>): real {
    if s == [] then 0.0 else s[0] + Sum(s[1..])
  }

  predicate NonNegative(s: seq<real>) {
    forall i | 0 <= i < |s| :: s[i] >= 0.0
  }

  lemma {:induction false} SumAppend(s: seq<real>, t: seq<real>)
    ensures Sum(s + t) == Sum(s) + Sum(t)
  {
    if s == [] {
      assert s + t == t;
    } else {
      assert (s + t)[1..] == s[1..] + t;
      SumAppend(s[1..], t);
    }
  }

  lemma HeadTail<T>(s: seq<T>)
    requires s != []
    ensures [s[0]] + s[1..] == s
  {}

  /** The erase-remove idiom. */
  function Erase<T(==)>(s: seq<T>, x: T): (r: seq<T>)
    ensures forall i | 0 <= i < |r| :: r[i] in s && r[i] != x
    ensures forall i | 0 <= i < |s| && s[i] != x :: s[i] in r
  {
    if s == [] then [] else (if s[0] == x then [] else [s[0]]) + Erase(s[1..], x)
  }

  lemma {:induction false} EraseNone<T>(s: seq<T>, x: T)
    requires x !in s
    ensures Erase(s, x) == s
  {
    if s != [] {
      EraseNone(s[1..], x);
    }
  }

  function EraseEach<T(==)>(s: seq<T>, vs: seq<T>): (r: seq<T>)
    ensures forall v :: v in r ==> v in s && v !in vs
    decreases |vs|
  {
    if vs == [] then s else Erase(EraseEach(s, vs[..|vs| - 1]), vs[|vs| - 1])
  }

  lemma EraseEachNext<T>(s: seq<T>, vs: seq<T>, i: nat)
    requires i < |vs|
    ensures EraseEach(s, vs[..i + 1]) == Erase(EraseEach(s, vs[..i]), vs[i])
  {
    assert vs[..i + 1][..i] == vs[..i];
  }

  lemma {:induction false} EraseEachHead<T>(x: T, s: seq<T>, vs: seq<T>)
    ensures EraseEach([x] + s, vs) == (if x in vs then [] else [x]) + EraseEach(s, vs)
    decreases |vs|
  {
    if vs == [] {
      assert x !in vs && EraseEach(s, vs) == s;
    } else {
      var ws, v := vs[..|vs| - 1], vs[|vs| - 1];
      EraseEachHead(x, s, ws);
      var r := EraseEach(s, ws);
      assert vs == ws + [v];
      if x in ws {
        assert [] + r == r;
      } else {
        assert ([x] + r)[1..] == r;
      }
    }
  }

  /** The list without its element i. */
  function Cut<T>(s: seq<T>, i: nat): (r: seq<T>)
    requires i < |s|
    ensures |r| == |s| - 1
    ensures forall a :: a in r ==> a in s
    ensures forall a :: a in s && a != s[i] ==> a in r
  {
    assert forall j | 0 <= j < |s| && j != i :: s[j] == (s[..i] + s[i + 1..])[if j < i then j else j - 1];
    s[..i] + s[i + 1..]
  }
}
