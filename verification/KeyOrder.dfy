/** Keys in byte order, which for UTF-8 text is the order of code points. */
module KeyOrder {
  import opened Seqs

  predicate Less(a: string, b: string)
    decreases |a|
  {
    b != [] && (a == [] || a[0] < b[0] || (a[0] == b[0] && Less(a[1..], b[1..])))
  }

  /** One key is below another when it is a proper prefix of it, or smaller at the first difference. */
  lemma {:induction false} LessIff(a: string, b: string)
    ensures Less(a, b) <==> exists i :: 0 <= i <= |a| && i < |b| && a[..i] == b[..i] && (i == |a| || a[i] < b[i])
    decreases |a|
  {
    if a != [] && b != [] {
      LessIff(a[1..], b[1..]);
      if Less(a, b) && a[0] == b[0] {
        var i :| 0 <= i <= |a[1..]| && i < |b[1..]| && a[1..][..i] == b[1..][..i]
                 && (i == |a[1..]| || a[1..][i] < b[1..][i]);
        assert a[..i + 1] == [a[0]] + a[1..][..i] && b[..i + 1] == [b[0]] + b[1..][..i];
      }
      if i :| 0 <= i <= |a| && i < |b| && a[..i] == b[..i] && (i == |a| || a[i] < b[i]) {
        if i > 0 {
          assert a[0] == a[..i][0] == b[..i][0] == b[0];
          assert a[1..][..i - 1] == a[..i][1..] == b[..i][1..] == b[1..][..i - 1];
        }
      }
    } else if Less(a, b) {
      assert a[..0] == b[..0];
    }
    assert Less(a, b) && a != [] && a[0] < b[0] ==> a[..0] == b[..0];
  }

  lemma {:induction false} LessTotal(a: string, b: string)
    ensures Less(a, b) || a == b || Less(b, a)
    decreases |a|
  {
    if a != [] && b != [] && a[0] == b[0] {
      LessTotal(a[1..], b[1..]);
      assert a == [a[0]] + a[1..] && b == [b[0]] + b[1..];
    }
  }

  lemma {:induction false} LessAsymmetric(a: string, b: string)
    requires Less(a, b)
    ensures !Less(b, a) && a != b
    decreases |a|
  {
    if a != [] && a[0] == b[0] { LessAsymmetric(a[1..], b[1..]); }
  }

  lemma {:induction false} LessTransitive(a: string, b: string, c: string)
    requires Less(a, b) && Less(b, c)
    ensures Less(a, c)
    decreases |a|
  {
    if a != [] && a[0] == b[0] == c[0] { LessTransitive(a[1..], b[1..], c[1..]); }
  }

  /** A key is never below its own prefixes. */
  lemma {:induction false} PrefixNotAbove(p: string, k: string)
    requires p <= k
    ensures !Less(k, p)
  {
    if p == k {
      if Less(k, p) { LessAsymmetric(k, p); }
    } else if p != [] {
      PrefixNotAbove(p[1..], k[1..]);
    }
  }

  /** Keys that share a prefix are contiguous: what lies between the prefix and such a key shares it. */
  lemma {:induction false} PrefixContiguous(p: string, m: string, k: string)
    requires p <= k && !Less(m, p) && Less(m, k)
    ensures p <= m
    decreases |p|
  {
    if p != [] {
      assert p[0] == k[0] && m != [] && m[0] == p[0];
      PrefixContiguous(p[1..], m[1..], k[1..]);
      assert m == [m[0]] + m[1..] && p == [p[0]] + p[1..];
    }
  }

  lemma {:induction false} LessIsAsymmetric(ks: set<string>)
    ensures Asymmetric(ks, Less)
  {
    forall x, y | x in ks && y in ks && Less(x, y) ensures !Less(y, x) { LessAsymmetric(x, y); }
  }

  /** Two ascending listings of the same keys are equal. */
  lemma {:induction false} ListingUnique(a: seq<string>, b: seq<string>)
    requires SortedBy(a, Less) && SortedBy(b, Less) && Elems(a) == Elems(b)
    ensures a == b
  {
    LessIsAsymmetric(Elems(a));
    SortedListingUnique(a, b, Less);
  }

  lemma {:induction false} SortedNoDup(a: seq<string>)
    requires SortedBy(a, Less)
    ensures NoDup(a)
  {
    forall i, j | 0 <= i < j < |a| ensures a[i] != a[j] { LessAsymmetric(a[i], a[j]); }
  }

  /** Inserting into an ascending set of keys. */
  function InsertKey(s: seq<string>, k: string): seq<string> {
    if s == [] then [k]
    else if s[0] == k then s
    else if Less(k, s[0]) then [k] + s
    else [s[0]] + InsertKey(s[1..], k)
  }

  lemma {:induction false} SortedCons(k: string, s: seq<string>)
    requires SortedBy(s, Less) && forall i :: 0 <= i < |s| ==> Less(k, s[i])
    ensures SortedBy([k] + s, Less) && Elems([k] + s) == {k} + Elems(s)
  {
    var t := [k] + s;
    forall i, j | 0 <= i < j < |t| ensures Less(t[i], t[j]) {
      assert t[j] == s[j - 1];
      if i > 0 { assert t[i] == s[i - 1]; }
    }
    ElemsConcat([k], s);
  }

  lemma {:induction false} InsertKeyFacts(s: seq<string>, k: string)
    requires SortedBy(s, Less)
    ensures SortedBy(InsertKey(s, k), Less) && Elems(InsertKey(s, k)) == Elems(s) + {k}
  {
    if s == [] || s[0] == k {
    } else if Less(k, s[0]) {
      forall i | 0 <= i < |s| ensures Less(k, s[i]) {
        if i > 0 { LessTransitive(k, s[0], s[i]); }
      }
      SortedCons(k, s);
    } else {
      LessTotal(k, s[0]);
      var rest := InsertKey(s[1..], k);
      InsertKeyFacts(s[1..], k);
      forall i | 0 <= i < |rest| ensures Less(s[0], rest[i]) {
        assert rest[i] in Elems(s[1..]) + {k};
      }
      SortedCons(s[0], rest);
      assert s == [s[0]] + s[1..];
      ElemsConcat([s[0]], s[1..]);
    }
  }

  function InsertAll(s: seq<string>, ks: seq<string>): seq<string> {
    if ks == [] then s else InsertKey(InsertAll(s, ks[..|ks| - 1]), ks[|ks| - 1])
  }

  lemma {:induction false} InsertAllFacts(s: seq<string>, ks: seq<string>)
    requires SortedBy(s, Less)
    ensures SortedBy(InsertAll(s, ks), Less) && Elems(InsertAll(s, ks)) == Elems(s) + Elems(ks)
  {
    if ks != [] {
      var n := |ks| - 1;
      InsertAllFacts(s, ks[..n]);
      InsertKeyFacts(InsertAll(s, ks[..n]), ks[n]);
      assert ks == ks[..n] + [ks[n]];
      ElemsConcat(ks[..n], [ks[n]]);
    }
  }

  /** The keys of a list in ascending order, each once. */
  function Sorted(ks: seq<string>): seq<string> { InsertAll([], ks) }

  lemma {:induction false} SortedFacts(ks: seq<string>)
    ensures SortedBy(Sorted(ks), Less) && Elems(Sorted(ks)) == Elems(ks)
  {
    InsertAllFacts([], ks);
  }

  /** The ascending listing of a set of keys. */
  ghost function Listing(ks: set<string>): (s: seq<string>)
    ensures SortedBy(s, Less) && Elems(s) == ks
  {
    if ks == {} then []
    else
      var k :| k in ks;
      InsertKeyFacts(Listing(ks - {k}), k);
      InsertKey(Listing(ks - {k}), k)
  }

  /** An ordered index lists a set of keys, whatever order they went in. */
  method ListInOrder(ks: set<string>) returns (s: seq<string>)
    ensures s == Listing(ks)
  {
    s := [];
    var rest := ks;
    while rest != {}
      invariant rest <= ks && SortedBy(s, Less) && Elems(s) == ks - rest
      decreases |rest|
    {
      var k :| k in rest;
      InsertKeyFacts(s, k);
      s := InsertKey(s, k);
      rest := rest - {k};
    }
    ListingUnique(s, Listing(ks));
  }

  /** A hash map lists its keys in some order. */
  method ListInAnyOrder(ks: set<string>) returns (s: seq<string>)
    ensures NoDup(s) && Elems(s) == ks
  {
    s := [];
    var rest := ks;
    while rest != {}
      invariant rest <= ks && NoDup(s) && Elems(s) == ks - rest
      decreases |rest|
    {
      var k :| k in rest;
      assert k !in Elems(s);
      ElemsConcat(s, [k]);
      s := s + [k];
      rest := rest - {k};
    }
  }
}
