/** Facts about sequences and finite sets that several components share. */
module Seqs {

  datatype Option<+T> = None | Some(value: T)

  function Min(a: nat, b: nat): nat { if a <= b then a else b }

  function Elems<T>(s: seq<T>): set<T> { set x | x in s }

  ghost predicate NoDup<T>(s: seq<T>) {
    forall i, j :: 0 <= i < j < |s| ==> s[i] != s[j]
  }

  lemma {:induction false} SliceSnoc<T>(s: seq<T>, a: nat, n: nat)
    requires a <= n < |s|
    ensures s[a..n + 1] == s[a..n] + [s[n]] && s[..n + 1] == s[..n] + [s[n]]
  {}

  lemma {:induction false} ElemsConcat<T>(a: seq<T>, b: seq<T>)
    ensures Elems(a + b) == Elems(a) + Elems(b)
  {}

  lemma {:induction false} NoDupCard<T>(s: seq<T>)
    requires NoDup(s)
    ensures |Elems(s)| == |s|
  {
    if s != [] {
      var n := |s| - 1;
      NoDupCard(s[..n]);
      assert Elems(s) == Elems(s[..n]) + {s[n]};
    }
  }

  lemma {:induction false} ElemsCard<T>(s: seq<T>)
    ensures |Elems(s)| <= |s|
  {
    if s != [] {
      var n := |s| - 1;
      ElemsCard(s[..n]);
      assert Elems(s) == Elems(s[..n]) + {s[n]};
    }
  }

  lemma {:induction false} SubsetCard<T>(a: set<T>, b: set<T>)
    requires a <= b
    ensures |a| <= |b|
    ensures |a| == |b| ==> a == b
  {
    assert b == a + (b - a);
  }

  lemma {:induction false} SameMultiset<T>(a: seq<T>, b: seq<T>)
    requires multiset(a) == multiset(b)
    ensures |a| == |b| && Elems(a) == Elems(b)
    ensures NoDup(a) ==> NoDup(b)
  {
    assert |multiset(a)| == |a| && |multiset(b)| == |b|;
    assert forall x :: x in a <==> x in multiset(a);
    assert forall x :: x in b <==> x in multiset(b);
    assert Elems(a) == Elems(b);
    if NoDup(a) {
      NoDupCard(a);
      CardNoDup(b);
    }
  }

  lemma {:induction false} NoDupCounts<T>(s: seq<T>, x: T)
    requires NoDup(s)
    ensures multiset(s)[x] <= 1
  {
    if s != [] {
      var n := |s| - 1;
      assert s == s[..n] + [s[n]];
      NoDupCounts(s[..n], x);
      assert x == s[n] ==> x !in s[..n];
    }
  }

  lemma {:induction false} CountsNoDup<T(!new)>(s: seq<T>)
    requires forall x :: multiset(s)[x] <= 1
    ensures NoDup(s)
  {
    forall i, j | 0 <= i < j < |s| ensures s[i] != s[j] {
      assert s == s[..j] + [s[j]] + s[j + 1..];
      assert multiset(s)[s[i]] >= multiset(s[..j])[s[i]] + multiset{s[j]}[s[i]];
      assert s[..j][i] in s[..j];
    }
  }

  lemma {:induction false} CardNoDup<T>(s: seq<T>)
    requires |Elems(s)| == |s|
    ensures NoDup(s)
  {
    if s != [] {
      var n := |s| - 1;
      var t, x := s[..n], s[n];
      assert Elems(s) == Elems(t) + {x};
      ElemsCard(t);
      CardNoDup(t);
      assert x in t ==> Elems(s) == Elems(t);
    }
  }

  /** `s` is strictly ascending in the relation `before`. */
  ghost predicate SortedBy<T(!new)>(s: seq<T>, before: (T, T) -> bool) {
    forall i, j :: 0 <= i < j < |s| ==> before(s[i], s[j])
  }

  ghost predicate Asymmetric<T(!new)>(xs: set<T>, before: (T, T) -> bool) {
    forall x, y :: x in xs && y in xs && before(x, y) ==> !before(y, x)
  }

  lemma {:induction false} EmptyElems<T>(s: seq<T>)
    ensures Elems(s) == {} <==> s == []
  {
    if s != [] { assert s[0] in Elems(s); }
  }

  /** A set has at most one listing in a given strict order. */
  lemma {:induction false} SortedListingUnique<T(!new)>(a: seq<T>, b: seq<T>, before: (T, T) -> bool)
    requires SortedBy(a, before) && SortedBy(b, before)
    requires Elems(a) == Elems(b) && Asymmetric(Elems(a), before)
    ensures a == b
    decreases |a|
  {
    EmptyElems(a);
    EmptyElems(b);
    if a != [] {
      assert a[0] in Elems(a) && b[0] in Elems(b);
      var j :| 0 <= j < |b| && b[j] == a[0];
      var i :| 0 <= i < |a| && a[i] == b[0];
      assert a[0] == b[0];
      TailElems(a, before);
      TailElems(b, before);
      SortedListingUnique(a[1..], b[1..], before);
      assert a == [a[0]] + a[1..] && b == [b[0]] + b[1..];
    }
  }

  lemma {:induction false} TailElems<T(!new)>(a: seq<T>, before: (T, T) -> bool)
    requires a != [] && SortedBy(a, before) && Asymmetric(Elems(a), before)
    ensures Elems(a[1..]) == Elems(a) - {a[0]}
  {
    forall i | 1 <= i < |a| ensures a[i] != a[0] {
      assert a[i] in Elems(a) && a[0] in Elems(a) && before(a[0], a[i]);
    }
    assert a == [a[0]] + a[1..];
  }
}

/** How many replicas a membership can carry. */
module Replication {
  import opened Seqs

  /** The replication used by `n` nodes when `target` is asked for. */
  function Clamp(target: nat, n: nat): nat {
    var t := Min(target, if n == 0 then 1 else n);
    if t == 0 then 1 else t
  }
}
